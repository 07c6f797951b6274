/**
 What the player does is what it was told to do and what its events say
 (playback/src/player.rs:1381-1647, 1739-1795, 1925-2325), over every run.
 */
module PlayerReports {
  import opened Prelude
  import opened PlayerMachine

  // ---- Told to play or to pause

  /** What the commands so far ask for: the last `Play`, `Pause` or load that succeeded. */
  function Wish(was: bool, p: Player, t: Tick): bool {
    if p.exited || t.command.None? then was
    else match t.command.value
      case Play => true
      case Pause => false
      case Load(track, play, position) => if CanLoad(p, track, position, t.answers) then play else was
      case _ => was
  }

  function Wishes(gapless: bool, ticks: seq<Tick>): bool {
    if ticks == [] then false
    else Wish(Wishes(gapless, ticks[..|ticks| - 1]), Run(gapless, ticks[..|ticks| - 1]), ticks[|ticks| - 1])
  }

  /** The player plays, or will play what it loads, only if that was asked for. */
  predicate Obeys(p: Player, wish: bool) {
    && (p.state.Playing? ==> wish)
    && (p.state.Loading? && p.state.play ==> wish)
  }

  /** And it pauses, or will pause, only if that was asked for. */
  predicate ObeysFully(p: Player, wish: bool) {
    && Obeys(p, wish)
    && (p.state.Paused? ==> !wish)
    && (p.state.Loading? && !p.state.play ==> !wish)
  }

  /** The sink starts and takes every packet. */
  predicate SinkWorks(t: Tick) {
    && t.answers.commandStarts && t.answers.loadStarts && t.answers.playStarts
    && (t.packet.Packet? ==> t.packet.written)
  }

  /** Where a start of playback leaves the player. */
  lemma StartObeys(p: Player, track: string, id: nat, position: nat, play: bool, starts: bool, stops: bool)
    ensures StartPlayback(p, track, id, position, play, starts, stops).state ==
            if play then Playing(track, id, position, false) else Paused(track, id, position, false)
  {
  }

  lemma LoadObeys(p: Player, track: string, known: Option<nat>, play: bool, position: nat, a: Answers)
    ensures var q := DoLoad(p, track, known, play, position, a);
            if CanLoad(p, track, position, a) then
              (if play then q.state.Playing? else q.state.Paused?) || (q.state.Loading? && q.state.play == play)
            else q.state == if p.state.EndOfTrack? && p.state.track == track then Invalid else p.state
  {
    hide LoadAs, Announced, LastId;
    var id := if known.Some? then known.value else p.nextId;
    AnnouncedHolds(p, id, play, a.sinkStops);
    LoadAsObeys(Announced(p, id, play, a.sinkStops), track, id, play, position, a);
  }

  lemma LoadAsObeys(p: Player, track: string, id: nat, play: bool, position: nat, a: Answers)
    ensures var q := LoadAs(p, track, id, play, position, a);
            if CanLoad(p, track, position, a) then
              (if play then q.state.Playing? else q.state.Paused?) || (q.state.Loading? && q.state.play == play)
            else q.state == if p.state.EndOfTrack? && p.state.track == track then Invalid else p.state
  {
    hide StartPlayback;
    forall r: Player, at
      ensures StartPlayback(r, track, id, at, play, a.commandStarts, a.sinkStops).state ==
              if play then Playing(track, id, at, false) else Paused(track, id, at, false)
    {
      StartObeys(r, track, id, at, play, a.commandStarts, a.sinkStops);
    }
  }

  lemma CommandObeys(p: Player, t: Tick, wish: bool)
    requires t.command.Some? && !p.exited && Obeys(p, wish)
    ensures Obeys(DoCommand(p, t.command.value, t.answers), Wish(wish, p, t))
    ensures ObeysFully(p, wish) && SinkWorks(t) ==>
              ObeysFully(DoCommand(p, t.command.value, t.answers), Wish(wish, p, t))
  {
    hide DoLoad, CanLoad;
    match t.command.value
    case Load(track, play, position) => LoadObeys(p, track, None, play, position, t.answers);
    case Seek(position) =>
      if p.state.Loading? { LoadObeys(p, p.state.track, Some(p.state.id), p.state.play, position, t.answers); }
    case _ =>
  }

  lemma LoaderObeys(p: Player, r: LoaderPoll, a: Answers, wish: bool)
    requires Obeys(p, wish)
    ensures Obeys(PollLoader(p, r, a), wish)
    ensures ObeysFully(p, wish) ==> ObeysFully(PollLoader(p, r, a), wish)
  {
    hide StartPlayback;
    if p.state.Loading? && r.Ready? {
      StartObeys(p, p.state.track, p.state.id, r.position, p.state.play, a.loadStarts, a.sinkStops);
    }
  }

  lemma PacketObeys(p: Player, t: Tick, wish: bool)
    requires Obeys(p, wish)
    ensures Obeys(PlayPacket(p, t.packet, t.answers), wish)
    ensures ObeysFully(p, wish) && SinkWorks(t) ==> ObeysFully(PlayPacket(p, t.packet, t.answers), wish)
  {
  }

  lemma TurnObeys(p: Player, t: Tick, wish: bool)
    requires Obeys(p, wish)
    ensures Obeys(Turn(p, t), Wish(wish, p, t))
    ensures ObeysFully(p, wish) && SinkWorks(t) ==> ObeysFully(Turn(p, t), Wish(wish, p, t))
  {
    hide DoCommand, PollLoader, PlayPacket, CanLoad;
    if !p.exited {
      var a := t.answers;
      var commanded := if t.command.Some? then DoCommand(p, t.command.value, a) else p;
      if t.command.Some? { CommandObeys(p, t, wish); }
      LoaderObeys(commanded, t.loader, a, Wish(wish, p, t));
      var loaded := PollPreloader(PollLoader(commanded, t.loader, a), t.preloader);
      PacketObeys(loaded, t, Wish(wish, p, t));
    }
  }

  /**
   Main result: in every run, the player is playing, or will play the track it is loading, only if the
   last `Play`, `Pause` or successful load asked for it; and if the sink always works, exactly then.
   */
  lemma {:induction false} DoesAsTold(gapless: bool, ticks: seq<Tick>)
    ensures Obeys(Run(gapless, ticks), Wishes(gapless, ticks))
    ensures (forall i :: 0 <= i < |ticks| ==> SinkWorks(ticks[i])) ==>
              ObeysFully(Run(gapless, ticks), Wishes(gapless, ticks))
  {
    hide Turn, Wish;
    if ticks != [] {
      var before := ticks[..|ticks| - 1];
      DoesAsTold(gapless, before);
      TurnObeys(Run(gapless, before), ticks[|ticks| - 1], Wishes(gapless, before));
    }
  }

  /** A load that fails does not count: a playing track asked to be loaded paused plays on. */
  lemma FailedLoadPlaysOn()
    ensures var paused := AGAIN.(command := Some(Load("t", false, 5)));
            Run(true, [STARTS, paused]).state.Playing? && !Run(true, [STARTS, paused]).exited
  {
    var paused := AGAIN.(command := Some(Load("t", false, 5)));
    AfterStart();
    RunSnoc(true, [STARTS], paused);
    assert [STARTS] + [paused] == [STARTS, paused];
    hide Run;
  }

  /** A load is obeyed exactly when it succeeds, asks to play, or finds nothing playing or about to play. */
  lemma LoadIsObeyed(p: Player, track: string, play: bool, position: nat, a: Answers)
    ensures Obeys(DoLoad(p, track, None, play, position, a), play) <==>
            || CanLoad(p, track, position, a) || play
            || !(p.state.Playing? || (p.state.Loading? && p.state.play))
  {
    hide DoLoad, CanLoad;
    LoadObeys(p, track, None, play, position, a);
  }

  // ---- Single commands

  /** Whether a load finds the track loaded already. */
  predicate Reuses(p: Player, track: string) {
    || ((p.state.EndOfTrack? || p.state.HasTrack()) && p.state.track == track)
    || (p.preload.Preloaded? && p.preload.track == track)
  }

  /** Where the loaded copy stands. */
  function LoadedAt(p: Player, track: string): nat
    requires Reuses(p, track)
  {
    if (p.state.EndOfTrack? || p.state.HasTrack()) && p.state.track == track then p.state.position
    else p.preload.position
  }

  /**
   Main result: a successful load takes over a loaded or preloaded copy at the wanted position, playing or
   paused as asked, and otherwise starts to load; either way under the announced id and with an empty slot.
   */
  lemma LoadShows(p: Player, track: string, known: Option<nat>, play: bool, position: nat, a: Answers)
    requires CanLoad(p, track, position, a)
    ensures var q := DoLoad(p, track, known, play, position, a);
            var id := if known.Some? then known.value else p.nextId;
            && q.preload == NoPreload && q.nextId == p.nextId + 1
            && q.state ==
               if Reuses(p, track) then
                 var at := if LoadedAt(p, track) == position || a.seek.None? then position else a.seek.value;
                 if play then Playing(track, id, at, false) else Paused(track, id, at, false)
               else Loading(track, id, play, false)
  {
    hide LastId, StartPlayback, Announced;
    var id := if known.Some? then known.value else p.nextId;
    AnnouncedHolds(p, id, play, a.sinkStops);
    AnnouncedNext(p, id, play, a.sinkStops);
    forall r: Player, at
      ensures var s := StartPlayback(r, track, id, at, play, a.commandStarts, a.sinkStops);
              && s.state == (if play then Playing(track, id, at, false) else Paused(track, id, at, false))
              && s.preload == r.preload && s.nextId == r.nextId
    {
      StartObeys(r, track, id, at, play, a.commandStarts, a.sinkStops);
      StartKeepsRest(r, track, id, at, play, a.commandStarts, a.sinkStops);
    }
  }

  lemma AnnouncedNext(p: Player, id: nat, play: bool, stops: bool)
    ensures Announced(p, id, play, stops).nextId == p.nextId + 1
  {
  }

  lemma StartKeepsRest(p: Player, track: string, id: nat, position: nat, play: bool, starts: bool, stops: bool)
    ensures var q := StartPlayback(p, track, id, position, play, starts, stops);
            q.preload == p.preload && q.nextId == p.nextId
  {
  }

  /** A new load leaves the sink alone in gapless mode, and otherwise closes it, for good unless it will play. */
  lemma LoadSink(p: Player, track: string, known: Option<nat>, play: bool, position: nat, a: Answers)
    requires CanLoad(p, track, position, a) && !Reuses(p, track) && a.sinkStops
    ensures var q := DoLoad(p, track, known, play, position, a);
            && q.exited == p.exited
            && q.sink == if p.gapless || p.sink == Closed then p.sink else if play then TemporarilyClosed else Closed
  {
  }

  /** A turn with a `Stop` stops, and reports it if there was something to stop. */
  lemma StopStops(p: Player, t: Tick)
    requires !p.exited && t.command == Some(Stop) && !Turn(p, t).exited
    ensures Turn(p, t).state.Stopped? && Turn(p, t).sink == (if p.state.Stopped? then p.sink else Closed)
    ensures HeldId(p.state).Some? ==> NowStopped(p.state.id) in Turn(p, t).events
  {
    hide DoLoad, StartPlayback;
    var q := DoCommand(p, Stop, t.answers);
    assert q.state.Stopped?;
    assert HeldId(p.state).Some? ==> q.events[|q.events| - 1] == NowStopped(p.state.id);
    hide DoStop;
    PollPrefix(q, t);
  }

  /** What was sent stays sent, and a stopped player only hears of its preload. */
  lemma PollPrefix(q: Player, t: Tick)
    requires q.state.Stopped?
    ensures var r := PollPreloader(PollLoader(q, t.loader, t.answers), t.preloader);
            r.state == q.state && r.sink == q.sink && q.events <= r.events
  {
  }

  /** A loader that is ready starts its track where it stands, as asked. */
  lemma LoaderStarts(p: Player, position: nat, a: Answers)
    requires p.state.Loading? && !p.state.failed
    ensures PollLoader(p, Ready(position), a).state ==
            if p.state.play then Playing(p.state.track, p.state.id, position, false)
            else Paused(p.state.track, p.state.id, position, false)
  {
  }

  /** After a preload command the slot is for that track, unless the track is loaded already. */
  lemma PreloadShows(p: Player, track: string)
    ensures var q, loaded := DoPreload(p, track), (p.state.HasTrack() || p.state.EndOfTrack?) && p.state.track == track;
            && q == p.(preload := q.preload)
            && q.preload == (if !p.preload.NoPreload? && p.preload.track == track then p.preload
                             else if loaded then NoPreload
                             else Preloading(track))
  {
  }

  /** One packet of a playing track: it moves the position, ends the track, or fails to be written. */
  lemma PacketShows(p: Player, packet: PacketPoll, a: Answers)
    requires p.state.Playing? && (p.sink == Running || a.playStarts)
    ensures var q, s := PlayPacket(p, packet, a), p.state;
            match packet
            case Packet(position, written) =>
              q.state == if written then Playing(s.track, s.id, position, s.suggested)
                         else Paused(s.track, s.id, position, s.suggested)
            case NoMorePackets =>
              q.state == EndOfTrack(s.track, s.id, s.position) && q.events == p.events + [Ended(s.id)]
            case DecoderFailed => q.state == s && q.events == p.events + [Ended(s.id)]
  {
  }

  /** A track whose sink does not start is paused, and the process ends. */
  lemma SilentSinkEnds(p: Player, packet: PacketPoll, a: Answers)
    requires p.state.Playing? && p.sink != Running && !a.playStarts
    ensures PlayPacket(p, packet, a).state.Paused? && PlayPacket(p, packet, a).exited
  {
  }

  /** A seek moves a loaded track, and nothing else about it; it fails without a trace. */
  lemma SeekShows(p: Player, position: nat, a: Answers)
    requires p.state.HasTrack()
    ensures DoSeek(p, position, a) ==
            if a.seek.None? then p else p.(state := p.state.MovedTo(a.seek.value)).Send(Seeked(p.state.id))
    ensures var s := p.state.MovedTo(if a.seek.Some? then a.seek.value else p.state.position);
            && s.HasTrack() && s.track == p.state.track && s.id == p.state.id && s.suggested == p.state.suggested
            && (s.Playing? <==> p.state.Playing?) && (a.seek.Some? ==> s.position == a.seek.value)
  {
  }

  /** A loader that fails reports its track, once, and is not asked again. */
  lemma LoaderFails(p: Player, r: LoaderPoll, a: Answers)
    requires p.state.Loading?
    ensures var q := PollLoader(p, Failed, a);
            if p.state.failed then q == p
            else q == p.(state := Loading(p.state.track, p.state.id, p.state.play, true), events := q.events) &&
                 q.events == p.events + [NotAvailable(p.state.id)]
    ensures PollLoader(p, Pending, a) == p && (p.state.failed ==> PollLoader(p, r, a) == p)
  {
  }

  /** A preload is offered to the next load: it is kept until a load, and replaced by another request. */
  lemma PreloaderKeeps(p: Player, r: LoaderPoll)
    ensures var q := PollPreloader(p, r);
            && q.state == p.state && q.sink == p.sink
            && q.preload == (if p.preload.Preloading? && r.Ready? then Preloaded(p.preload.track, r.position)
                             else if p.preload.Preloading? && r.Failed? then NoPreload
                             else p.preload)
            && q.events == p.events +
                 (if p.preload.Preloading? && r.Ready? then [PreloadDone(p.preload.track)]
                  else if p.preload.Preloading? && r.Failed? && p.state.HasTrack() then [NotAvailable(p.state.id)]
                  else [])
  {
  }

  // ---- Told by its events

  datatype Heard =
    | Silence | HeardLoading(id: nat) | HeardPlaying(id: nat) | HeardPaused(id: nat) | HeardStopped(id: nat)
    | HeardEnded(id: nat)

  /** What a listener who only follows the events believes. */
  function Listen(events: seq<Event>): Heard {
    if events == [] then Silence
    else match events[|events| - 1]
      case NowLoading(id) => HeardLoading(id)
      case NowPlaying(id) => HeardPlaying(id)
      case NowPaused(id) => HeardPaused(id)
      case NowStopped(id) => HeardStopped(id)
      case Ended(id) => HeardEnded(id)
      case _ => Listen(events[..|events| - 1])
  }

  lemma ListenSend(events: seq<Event>, e: Event)
    ensures Listen(events + [e]) ==
            match e
            case NowLoading(id) => HeardLoading(id)
            case NowPlaying(id) => HeardPlaying(id)
            case NowPaused(id) => HeardPaused(id)
            case NowStopped(id) => HeardStopped(id)
            case Ended(id) => HeardEnded(id)
            case _ => Listen(events)
  {
    assert (events + [e])[..|events|] == events;
  }

  /** The listener is right, every loaded track was announced, and so was every suggestion. */
  predicate Told(p: Player) {
    match p.state
    case Stopped => Listen(p.events).Silence? || Listen(p.events).HeardStopped?
    case Loading(_, id, _, _) => Listen(p.events) == HeardLoading(id)
    case Playing(_, id, _, suggested) =>
      Listen(p.events) == HeardPlaying(id) && Started(id) in p.events && (suggested ==> TimeToPreload(id) in p.events)
    case Paused(_, id, _, suggested) =>
      Listen(p.events) == HeardPaused(id) && Started(id) in p.events && (suggested ==> TimeToPreload(id) in p.events)
    case EndOfTrack(_, id, _) => Listen(p.events) == HeardEnded(id) && Started(id) in p.events
    case Invalid => true
  }

  lemma SinkTold(p: Player, flag: bool, starts: bool, stops: bool)
    requires Told(p)
    ensures Told(EnsureStopped(p, flag, stops)) && Told(DoPause(p, stops)) && Told(EnsureRunning(p, starts, stops))
  {
    hide Listen;
    if p.state.Playing? {
      var q := p.(state := Paused(p.state.track, p.state.id, p.state.position, p.state.suggested));
      ListenSend(EnsureStopped(q, false, stops).events, NowPaused(p.state.id));
    }
  }

  lemma SinkEvents(p: Player, flag: bool, starts: bool, stops: bool)
    ensures p.events <= EnsureStopped(p, flag, stops).events && p.events <= EnsureRunning(p, starts, stops).events
  {
  }

  lemma StartTold(p: Player, track: string, id: nat, position: nat, play: bool, starts: bool, stops: bool)
    ensures Told(StartPlayback(p, track, id, position, play, starts, stops))
  {
    hide Listen, EnsureRunning, EnsureStopped;
    var announced := p.Send(Started(id));
    SinkEvents(announced, false, starts, stops);
    assert announced.events[|p.events|] == Started(id);
    ListenSend(EnsureRunning(announced, starts, stops).events, NowPlaying(id));
    ListenSend(EnsureStopped(announced, false, stops).events, NowPaused(id));
  }

  lemma SendTold(p: Player, e: Event)
    requires Told(p)
    requires e.IdChanged? || e.Started? || e.Seeked? || e.TimeToPreload? || e.NotAvailable? || e.PreloadDone?
    ensures Told(p.Send(e))
  {
    hide Listen;
    ListenSend(p.events, e);
  }

  lemma LoadTold(p: Player, track: string, known: Option<nat>, play: bool, position: nat, a: Answers)
    requires Told(p)
    ensures Told(DoLoad(p, track, known, play, position, a))
  {
    var id := if known.Some? then known.value else p.nextId;
    var sent := p.(nextId := p.nextId + 1);
    SameTold(p, sent);
    SendTold(sent, IdChanged(id));
    hide Told, StartPlayback, Listen;
    SinkTold(sent.Send(IdChanged(id)), play, false, a.sinkStops);
    LoadAsTold(Announced(p, id, play, a.sinkStops), track, id, play, position, a);
  }

  lemma SameTold(p: Player, q: Player)
    requires Told(p) && q.state == p.state && q.events == p.events
    ensures Told(q)
  {
  }

  lemma LoadAsTold(q: Player, track: string, id: nat, play: bool, position: nat, a: Answers)
    requires Told(q)
    ensures Told(LoadAs(q, track, id, play, position, a))
  {
    hide StartPlayback, Listen;
    ListenSend(q.events, NowLoading(id));
    forall r: Player, at
      ensures Told(StartPlayback(r, track, id, at, play, a.commandStarts, a.sinkStops))
    {
      StartTold(r, track, id, at, play, a.commandStarts, a.sinkStops);
    }
  }

  lemma CommandTold(p: Player, c: Command, a: Answers)
    requires Told(p)
    ensures Told(DoCommand(p, c, a))
  {
    hide Listen, DoLoad, EnsureRunning, EnsureStopped, DoPause;
    match c
    case Load(track, play, position) => LoadTold(p, track, None, play, position, a);
    case Seek(position) =>
      if p.state.Loading? { LoadTold(p, p.state.track, Some(p.state.id), p.state.play, position, a); }
      if p.state.HasTrack() && a.seek.Some? {
        SendTold(p.(state := p.state.MovedTo(a.seek.value)), Seeked(p.state.id));
      }
    case Play =>
      if p.state.Paused? {
        var q := p.(state := Playing(p.state.track, p.state.id, p.state.position, p.state.suggested));
        ListenSend(q.events, NowPlaying(p.state.id));
        SinkTold(q.Send(NowPlaying(p.state.id)), false, a.commandStarts, a.sinkStops);
      }
    case Pause => SinkTold(p, false, false, a.sinkStops);
    case Stop =>
      if HeldId(p.state).Some? { ListenSend(EnsureStopped(p, false, a.sinkStops).events, NowStopped(p.state.id)); }
    case _ =>
  }

  lemma LoadersTold(p: Player, r: LoaderPoll, s: LoaderPoll, a: Answers)
    requires Told(p)
    ensures Told(PollPreloader(PollLoader(p, r, a), s))
  {
    hide Told, PollLoader, PollPreloader;
    LoaderTold(p, r, a);
    PreloaderTold(PollLoader(p, r, a), s);
  }

  lemma LoaderTold(p: Player, r: LoaderPoll, a: Answers)
    requires Told(p)
    ensures Told(PollLoader(p, r, a))
  {
    hide StartPlayback, Listen;
    if p.state.Loading? {
      if r.Ready? {
        StartTold(p, p.state.track, p.state.id, r.position, p.state.play, a.loadStarts, a.sinkStops);
      }
      SendTold(p, NotAvailable(p.state.id));
    }
  }

  lemma PreloaderTold(p: Player, s: LoaderPoll)
    requires Told(p)
    ensures Told(PollPreloader(p, s))
  {
    hide Listen;
    if p.preload.Preloading? { SendTold(p, PreloadDone(p.preload.track)); }
    if p.state.HasTrack() { SendTold(p.(preload := NoPreload), NotAvailable(p.state.id)); }
  }

  /** A decoder that fails reports the end of the track, but the player stays where it was. */
  predicate Misreports(p: Player, packet: PacketPoll, a: Answers) {
    p.state.Playing? && packet.DecoderFailed? && (p.sink == Running || a.playStarts)
  }

  lemma PacketTold(p: Player, packet: PacketPoll, a: Answers)
    requires Told(p)
    ensures Told(PlayPacket(p, packet, a)) <==> !Misreports(p, packet, a)
    ensures Misreports(p, packet, a) ==>
              var q := PlayPacket(p, packet, a);
              q.state.Playing? && q.exited == p.exited && Listen(q.events).HeardEnded?
  {
    hide Listen, DoPause, EnsureRunning;
    if p.state.Playing? {
      SinkTold(p, false, a.playStarts, a.sinkStops);
      RunsOrPauses(p, a.playStarts, a.sinkStops);
      var q := EnsureRunning(p, a.playStarts, a.sinkStops);
      if q.state.Playing? {
        ListenSend(q.events, Ended(q.state.id));
        if packet.Packet? { SinkTold(q.(state := q.state.MovedTo(packet.position)), false, false, a.sinkStops); }
      }
    }
  }

  lemma RunsOrPauses(p: Player, starts: bool, stops: bool)
    requires p.state.Playing?
    ensures var q := EnsureRunning(p, starts, stops);
            if p.sink == Running || starts then q.state == p.state && q.exited == p.exited && q.events == p.events
            else q.state.Paused?
  {
  }

  /** The player when a turn comes to the decoder. */
  function Loaded(p: Player, t: Tick): Player {
    var commanded := if t.command.Some? then DoCommand(p, t.command.value, t.answers) else p;
    if commanded.exited then commanded else PollPreloader(PollLoader(commanded, t.loader, t.answers), t.preloader)
  }

  /** In this turn a decoder fails while its track is playing. */
  predicate DecoderGivesUp(p: Player, t: Tick) {
    !p.exited && !Loaded(p, t).exited && Misreports(Loaded(p, t), t.packet, t.answers)
  }

  lemma SuggestTold(p: Player, nearEnd: bool)
    ensures Told(Suggest(p, nearEnd)) <==> Told(p)
  {
    hide Listen;
    if p.state.HasTrack() {
      ListenSend(p.events, TimeToPreload(p.state.id));
      assert (p.events + [TimeToPreload(p.state.id)])[|p.events|] == TimeToPreload(p.state.id);
    }
  }

  lemma TurnTold(p: Player, t: Tick)
    requires Told(p)
    ensures Told(Turn(p, t)) <==> !DecoderGivesUp(p, t)
  {
    hide Told, Listen, DoCommand, PollLoader, PollPreloader, PlayPacket, Suggest, Misreports;
    if !p.exited {
      var commanded := if t.command.Some? then DoCommand(p, t.command.value, t.answers) else p;
      if t.command.Some? { CommandTold(p, t.command.value, t.answers); }
      if !commanded.exited {
        LoadersTold(commanded, t.loader, t.preloader, t.answers);
        var loaded := Loaded(p, t);
        PacketTold(loaded, t.packet, t.answers);
        SuggestTold(PlayPacket(loaded, t.packet, t.answers), t.nearEnd);
      }
    }
  }

  /**
   Main result: along a whole run, a listener who follows the events knows the state, every loaded track
   was announced as started and every suggestion was sent, if and only if no decoder fails in mid-track.
   */
  lemma {:induction false} ListenersKnow(gapless: bool, ticks: seq<Tick>)
    ensures (forall k :: 0 <= k <= |ticks| ==> Told(Run(gapless, ticks[..k]))) <==>
            (forall k :: 0 <= k < |ticks| ==> !DecoderGivesUp(Run(gapless, ticks[..k]), ticks[k]))
  {
    hide Told, DecoderGivesUp, Turn;
    if forall k :: 0 <= k < |ticks| ==> !DecoderGivesUp(Run(gapless, ticks[..k]), ticks[k]) {
      ToldThroughout(gapless, ticks, |ticks|);
    } else {
      var k :| 0 <= k < |ticks| && DecoderGivesUp(Run(gapless, ticks[..k]), ticks[k]);
      if Told(Run(gapless, ticks[..k])) {
        NextTold(gapless, ticks, k);
        assert !Told(Run(gapless, ticks[..k + 1]));
      }
    }
  }

  lemma NextTold(gapless: bool, ticks: seq<Tick>, k: nat)
    requires k < |ticks| && Told(Run(gapless, ticks[..k]))
    ensures Told(Run(gapless, ticks[..k + 1])) <==> !DecoderGivesUp(Run(gapless, ticks[..k]), ticks[k])
  {
    hide Told, DecoderGivesUp, Turn;
    TurnTold(Run(gapless, ticks[..k]), ticks[k]);
    assert ticks[..k + 1][..k] == ticks[..k];
  }

  lemma {:induction false} ToldThroughout(gapless: bool, ticks: seq<Tick>, n: nat)
    requires n <= |ticks| && forall k :: 0 <= k < n ==> !DecoderGivesUp(Run(gapless, ticks[..k]), ticks[k])
    ensures forall k :: 0 <= k <= n ==> Told(Run(gapless, ticks[..k]))
  {
    hide DecoderGivesUp, Turn;
    if n > 0 {
      hide Told;
      ToldThroughout(gapless, ticks, n - 1);
      NextTold(gapless, ticks, n - 1);
    }
  }

  /** A run in which it is not so: the decoder fails, listeners hear the end, the player plays on. */
  lemma EndIsMisreported()
    ensures var fails := ENDS.(packet := DecoderFailed); var p := Run(true, [STARTS, fails]);
            p.state.Playing? && !p.exited && !Told(p)
  {
    var fails := ENDS.(packet := DecoderFailed);
    AfterStart();
    RunSnoc(true, [STARTS], fails);
    assert [STARTS] + [fails] == [STARTS, fails];
    hide Run, Listen;
    var p := Run(true, [STARTS]);
    ListenSend(p.events, Ended(0));
  }

  /** Near the end of a track a preload is suggested, unless it was already. */
  lemma SuggestsNearEnd(p: Player, t: Tick)
    requires t.nearEnd && !Turn(p, t).exited && Turn(p, t).state.HasTrack()
    ensures Turn(p, t).state.suggested
  {
    hide DoCommand, PollLoader, PollPreloader, PlayPacket;
  }
}
