/**
 The player object (playback/src/player.rs, `PlayerInternal`): its handlers replace the state, the
 preload slot and the sink status in place. What every turn keeps is the object's invariant: a
 stopped or paused player has released the sink, and request ids are used in order, once each.
 */
module PlayerProcess {
  import opened Prelude
  import opened PlayerMachine
  import opened PlayerReports

  /** The player plays, holds or loads this track under this request id. */
  predicate TakesOn(s: State, track: string, id: nat) {
    (s.Loading? || s.HasTrack()) && s.track == track && s.id == id
  }

  class PlayerInternal {
    const gapless: bool
    var state: State
    var preload: Preload
    var sink: SinkStatus
    var nextId: nat
    var events: seq<Event>
    var exited: bool      // `exit(1)` was called

    function View(): Player reads this { Player(state, preload, sink, nextId, gapless, events, exited) }

    ghost predicate Valid() reads this { SinkReleased(View()) && IdsInOrder(View()) }

    constructor (gapless: bool)
      ensures Valid() && View() == Initial(gapless)
    {
      this.gapless := gapless;
      state, preload, sink, nextId, events, exited := Stopped, NoPreload, Closed, 0, [], false;
    }

    method SendEvent(e: Event)
      modifies this`events
      ensures View() == old(View()).Send(e)
    {
      events := events + [e];
    }

    method EnsureSinkStopped(temporarily: bool, stops: bool)
      modifies this`sink, this`exited
      ensures View() == EnsureStopped(old(View()), temporarily, stops)
      ensures !exited ==> sink != Running && (!temporarily ==> sink == Closed)
    {
      match sink {
        case Running =>
          if stops {
            sink := if temporarily then TemporarilyClosed else Closed;
          } else {
            exited := true;
          }
        case TemporarilyClosed =>
          if !temporarily { sink := Closed; }
        case Closed =>
      }
    }

    method EnsureSinkRunning(starts: bool, stops: bool)
      modifies this
      ensures View() == EnsureRunning(old(View()), starts, stops)
      ensures sink == Running || !state.Playing?
    {
      if sink != Running {
        if starts {
          sink := Running;
        } else {
          HandlePause(stops);
        }
      }
    }

    method HandlePause(stops: bool)
      modifies this
      ensures View() == DoPause(old(View()), stops)
      ensures !state.Playing? && (state.Loading? ==> !state.play)
      ensures !exited && state.Paused? ==> sink == Closed
    {
      match state {
        case Paused(_, _, _, _) => EnsureSinkStopped(false, stops);
        case Playing(track, id, position, suggested) =>
          state := Paused(track, id, position, suggested);
          EnsureSinkStopped(false, stops);
          SendEvent(NowPaused(id));
        case Loading(track, id, _, failed) => state := Loading(track, id, false, failed);
        case _ =>
      }
    }

    method HandlePlay(starts: bool, stops: bool)
      modifies this
      ensures View() == DoPlay(old(View()), starts, stops)
      ensures state.Loading? ==> state.play
      ensures old(state.Paused?) && starts ==> state.Playing? && sink == Running
    {
      match state {
        case Paused(track, id, position, suggested) =>
          state := Playing(track, id, position, suggested);
          SendEvent(NowPlaying(id));
          EnsureSinkRunning(starts, stops);
        case Loading(track, id, _, failed) => state := Loading(track, id, true, failed);
        case _ =>
      }
    }

    method HandlePlayerStop(stops: bool)
      modifies this
      ensures View() == DoStop(old(View()), stops)
      ensures if old(state.Invalid?) then exited else state.Stopped?
    {
      if state.Invalid? {
        exited := true;
      } else if !state.Stopped? {
        var id := state.id;
        EnsureSinkStopped(false, stops);
        SendEvent(NowStopped(id));
        state := Stopped;
      }
    }

    method BeginPlayback(track: string, id: nat, position: nat, play: bool, starts: bool, stops: bool)
      modifies this
      ensures View() == StartPlayback(old(View()), track, id, position, play, starts, stops)
      ensures SinkReleased(View()) && TakesOn(state, track, id)
    {
      SendEvent(Started(id));
      if play {
        EnsureSinkRunning(starts, stops);
        SendEvent(NowPlaying(id));
        state := Playing(track, id, position, false);
      } else {
        EnsureSinkStopped(false, stops);
        state := Paused(track, id, position, false);
        SendEvent(NowPaused(id));
      }
    }

    method HandleCommandLoad(track: string, known: Option<nat>, play: bool, position: nat, a: Answers)
      returns (ok: bool)
      modifies this
      ensures View() == DoLoad(old(View()), track, known, play, position, a)
      ensures ok <==> CanLoad(old(View()), track, position, a)
      ensures ok ==> TakesOn(state, track, if known.Some? then known.value else old(nextId))
      ensures ok && !old(Reuses(View(), track)) ==> state.Loading? && state.play == play
      ensures ok && old(Reuses(View(), track)) ==>
                && (if play then state.Playing? else state.Paused?)
                && state.position == if old(LoadedAt(View(), track)) == position || a.seek.None? then position
                                     else a.seek.value
    {
      hide StartPlayback, EnsureStopped;
      if CanLoad(View(), track, position, a) { LoadShows(View(), track, known, play, position, a); }
      var generated := nextId;
      nextId := nextId + 1;
      var id := if known.Some? then known.value else generated;
      SendEvent(IdChanged(id));
      if !gapless { EnsureSinkStopped(play, a.sinkStops); }
      ok := LoadOrReuse(track, id, play, position, a);
    }

    method LoadOrReuse(track: string, id: nat, play: bool, position: nat, a: Answers) returns (ok: bool)
      modifies this
      ensures View() == LoadAs(old(View()), track, id, play, position, a)
      ensures ok <==> CanLoad(old(View()), track, position, a)
      ensures ok ==> TakesOn(state, track, id)
    {
      hide StartPlayback;
      if state.Invalid? { return false; }
      if (state.EndOfTrack? || state.HasTrack()) && state.track == track {
        ok := ReuseCurrent(track, id, play, position, a);
        return;
      }
      if preload.Preloaded? && preload.track == track {
        ok := ReusePreloaded(track, id, play, position, a);
        return;
      }
      SendEvent(NowLoading(id));
      preload := NoPreload;
      state := Loading(track, id, play, false);
      ok := true;
    }

    /** The ended track gives up its state before the seek, the current one after it. */
    method ReuseCurrent(track: string, id: nat, play: bool, position: nat, a: Answers) returns (ok: bool)
      requires (state.EndOfTrack? || state.HasTrack()) && state.track == track
      modifies this
      ensures View() == LoadAs(old(View()), track, id, play, position, a)
      ensures ok <==> old(state).position == position || a.seek.Some?
      ensures ok ==> TakesOn(state, track, id)
    {
      hide StartPlayback;
      var at := state.position;
      if state.EndOfTrack? { state := Invalid; }
      if position != at {
        if a.seek.None? { return false; }
        at := a.seek.value;
      }
      state := Invalid;
      preload := NoPreload;
      BeginPlayback(track, id, at, play, a.commandStarts, a.sinkStops);
      ok := true;
    }

    method ReusePreloaded(track: string, id: nat, play: bool, position: nat, a: Answers) returns (ok: bool)
      requires !state.Invalid? && !((state.EndOfTrack? || state.HasTrack()) && state.track == track)
      requires preload.Preloaded? && preload.track == track
      modifies this
      ensures View() == LoadAs(old(View()), track, id, play, position, a)
      ensures ok <==> old(preload).position == position || a.seek.Some?
      ensures ok ==> TakesOn(state, track, id)
    {
      hide StartPlayback;
      var at := preload.position;
      preload := NoPreload;
      if position != at {
        if a.seek.None? { return false; }
        at := a.seek.value;
      }
      BeginPlayback(track, id, at, play, a.commandStarts, a.sinkStops);
      ok := true;
    }

    method HandleCommandSeek(position: nat, a: Answers)
      modifies this
      ensures View() == DoSeek(old(View()), position, a)
      ensures old(state.HasTrack()) && a.seek.Some? ==>
                state.HasTrack() && state.position == a.seek.value && state.id == old(state).id
    {
      hide LoadAs;
      if state.Loading? {
        var _ := HandleCommandLoad(state.track, Some(state.id), state.play, position, a);
      } else if state.HasTrack() {
        if a.seek.Some? {
          state := state.MovedTo(a.seek.value);
          SendEvent(Seeked(state.id));
        }
      } else if state.Invalid? {
        exited := true;
      }
    }

    method HandleCommandPreload(track: string)
      modifies this`preload
      ensures View() == DoPreload(old(View()), track)
      ensures preload.NoPreload? || preload.track == track
      ensures preload.NoPreload? ==> (state.HasTrack() || state.EndOfTrack?) && state.track == track
    {
      var preloadTrack := true;
      if !preload.NoPreload? {
        if preload.track == track {
          preloadTrack := false;
        } else {
          preload := NoPreload;
        }
      }
      if (state.HasTrack() || state.EndOfTrack?) && state.track == track { preloadTrack := false; }
      if preloadTrack { preload := Preloading(track); }
    }

    method HandleCommand(c: Command, a: Answers)
      requires Valid()
      modifies this
      ensures Valid() && View() == DoCommand(old(View()), c, a)
    {
      hide SinkReleased, IdsInOrder, DoLoad, DoSeek, DoPreload, DoPlay, DoPause, DoStop;
      SinkCommand(View(), c, a);
      CommandInOrder(View(), c, a);
      match c {
        case Load(track, play, position) =>
          var _ := HandleCommandLoad(track, None, play, position, a);
        case PreloadTrack(track) => HandleCommandPreload(track);
        case Play => HandlePlay(a.commandStarts, a.sinkStops);
        case Pause => HandlePause(a.sinkStops);
        case Stop => HandlePlayerStop(a.sinkStops);
        case Seek(position) => HandleCommandSeek(position, a);
        case Other =>
      }
    }

    method PollLoaders(loader: LoaderPoll, preloader: LoaderPoll, a: Answers)
      requires Valid()
      modifies this
      ensures Valid() && View() == PollPreloader(PollLoader(old(View()), loader, a), preloader)
    {
      hide SinkReleased, IdsInOrder, PollLoader, PollPreloader;
      LoadersKeep(View(), loader, preloader, a);
      PollLoading(loader, a);
      PollPreloading(preloader);
    }

    /** A track that is loaded starts playback; a loader that failed is not polled again. */
    method PollLoading(loader: LoaderPoll, a: Answers)
      modifies this
      ensures View() == PollLoader(old(View()), loader, a)
    {
      hide StartPlayback;
      if state.Loading? && !state.failed {
        match loader {
          case Ready(position) => BeginPlayback(state.track, state.id, position, state.play, a.loadStarts, a.sinkStops);
          case Failed =>
            SendEvent(NotAvailable(state.id));
            state := Loading(state.track, state.id, state.play, true);
          case Pending =>
        }
      }
    }

    method PollPreloading(preloader: LoaderPoll)
      modifies this
      ensures View() == PollPreloader(old(View()), preloader)
    {
      if preload.Preloading? {
        match preloader {
          case Ready(position) =>
            SendEvent(PreloadDone(preload.track));
            preload := Preloaded(preload.track, position);
          case Failed =>
            preload := NoPreload;
            if state.HasTrack() { SendEvent(NotAvailable(state.id)); }
          case Pending =>
        }
      }
    }

    method DecodePacket(packet: PacketPoll, a: Answers)
      requires Valid()
      modifies this
      ensures Valid() && View() == PlayPacket(old(View()), packet, a)
    {
      hide EnsureRunning, DoPause, SinkReleased, IdsInOrder;
      SinkPacket(View(), packet, a);
      PacketInOrder(View(), packet, a);
      if state.Invalid? {
        exited := true;
      } else if state.Playing? {
        EnsureSinkRunning(a.playStarts, a.sinkStops);
        if !state.Playing? {
          exited := true;
        } else {
          match packet {
            case Packet(position, written) =>
              state := state.MovedTo(position);
              if !written { HandlePause(a.sinkStops); }
            case NoMorePackets =>
              state := EndOfTrack(state.track, state.id, state.position);
              SendEvent(Ended(state.id));
            case DecoderFailed => SendEvent(Ended(state.id));
          }
        }
      }
    }

    /** One turn of the loop in `poll`; it keeps the held id exactly when no needed seek fails. */
    method Poll(t: Tick)
      requires Valid()
      modifies this
      ensures Valid() && View() == Turn(old(View()), t)
      ensures AtMostOnce(events)
      ensures forall wish :: old(Obeys(View(), wish)) ==> Obeys(View(), Wish(wish, old(View()), t))
      ensures old(Told(View())) ==> (Told(View()) <==> !DecoderGivesUp(old(View()), t))
      ensures old(HoldsLastId(View())) ==> (HoldsLastId(View()) <==> !LosesId(old(View()), t))
    {
      hide SinkReleased, IdsInOrder, DoCommand, PollLoader, PollPreloader, PlayPacket, HoldsLastId, LosesId;
      hide Obeys, Wish, Told, DecoderGivesUp;
      TurnKeeps(View(), t);
      TurnReports(View(), t);
      if exited { return; }
      if t.command.Some? { HandleCommand(t.command.value, t.answers); }
      if exited { return; }
      PollLoaders(t.loader, t.preloader, t.answers);
      if exited { return; }
      DecodePacket(t.packet, t.answers);
      if exited { return; }
      if state.HasTrack() && !state.suggested && t.nearEnd {
        state := state.AlreadySuggested();
        SendEvent(TimeToPreload(state.id));
      }
    }

    /** `poll` over everything that happens to a new player: the run that the theorems are about. */
    method PollAll(ticks: seq<Tick>)
      requires View() == Initial(gapless)
      modifies this
      ensures View() == Run(gapless, ticks)
      ensures SinkReleased(View()) && AtMostOnce(events) && Obeys(View(), Wishes(gapless, ticks))
    {
      hide SinkReleased, IdsInOrder, Turn, LosesId, HoldsLastId, Obeys, Wish, Told, DecoderGivesUp;
      DoesAsTold(gapless, ticks);
      SinkAlwaysReleased(gapless, []);
      RunInOrder(gapless, []);
      InOrderAtMostOnce(View());
      for i := 0 to |ticks|
        invariant Valid() && View() == Run(gapless, ticks[..i]) && AtMostOnce(events)
      {
        assert ticks[..i + 1][..i] == ticks[..i];
        Poll(ticks[i]);
      }
      assert ticks[..|ticks|] == ticks;
    }
  }

  lemma InOrderAtMostOnce(p: Player)
    requires IdsInOrder(p)
    ensures AtMostOnce(p.events)
  {
    hide Tally;
  }

  lemma TurnReports(p: Player, t: Tick)
    ensures forall wish :: Obeys(p, wish) ==> Obeys(Turn(p, t), Wish(wish, p, t))
    ensures Told(p) ==> (Told(Turn(p, t)) <==> !DecoderGivesUp(p, t))
  {
    hide Obeys, Wish, Told, DecoderGivesUp, Turn;
    forall wish | Obeys(p, wish)
      ensures Obeys(Turn(p, t), Wish(wish, p, t))
    {
      TurnObeys(p, t, wish);
    }
    if Told(p) { TurnTold(p, t); }
  }

  lemma LoadersKeep(p: Player, loader: LoaderPoll, preloader: LoaderPoll, a: Answers)
    requires SinkReleased(p) && IdsInOrder(p)
    ensures var q := PollPreloader(PollLoader(p, loader, a), preloader); SinkReleased(q) && IdsInOrder(q)
  {
    hide IdsInOrder, PollLoader;
    SinkLoader(p, loader, a);
    LoaderInOrder(p, loader, a);
    PreloaderInOrder(PollLoader(p, loader, a), preloader);
  }

  lemma TurnKeeps(p: Player, t: Tick)
    requires SinkReleased(p) && IdsInOrder(p)
    ensures SinkReleased(Turn(p, t)) && IdsInOrder(Turn(p, t)) && AtMostOnce(Turn(p, t).events)
    ensures HoldsLastId(p) ==> (HoldsLastId(Turn(p, t)) <==> !LosesId(p, t))
  {
    hide SinkReleased, IdsInOrder, Turn, HoldsLastId, LosesId;
    SinkTurn(p, t);
    TurnInOrder(p, t);
    InOrderAtMostOnce(Turn(p, t));
    if HoldsLastId(p) { TurnHolds(p, t); }
  }
}
