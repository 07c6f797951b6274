/**
 The play queue of a Connect device (connect/src/state/tracks.rs, state.rs, context.rs).

 `next` is a look-ahead buffer of at most 80 entries, filled from a context; it may hold
 queued tracks in front and delimiters where a context is repeated or handed over to autoplay.
 The operations are functions of the queue here; `ConnectState` has them as methods.
 */
module PlayQueue {
  import opened Prelude

  const MAX_NEXT: nat := 80
  const MAX_PREV: nat := 10
  const DELIMITER: string := "delimiter"

  datatype Provider = FromContext | FromQueue | FromAutoplay | Unavailable

  datatype Track = Track(uri: string, uid: string, provider: Provider, contextIndex: Option<nat>, queued: bool) {
    predicate IsDelimiter() { DELIMITER <= uid }
    /** What `next_track` stops at. */
    predicate Playable() { !IsDelimiter() && provider != Unavailable }
    predicate FromAnyContext() { provider == FromContext || provider == FromAutoplay }
  }

  datatype Kind = DefaultContext | AutoplayContext

  datatype StateContext = StateContext(tracks: seq<Track>, index: nat, page: nat, initialTrack: Option<string>)

  datatype Queue = Queue(
    track: Option<Track>, next: seq<Track>, prev: seq<Track>, index: Option<nat>,
    repeatTrack: bool, repeatContext: bool,
    active: Kind, fillUp: Kind,
    context: Option<StateContext>, autoplay: Option<StateContext>,
    queueCount: nat, unavailable: seq<string>)
  {
    function GetContext(kind: Kind): Option<StateContext> {
      if kind == DefaultContext then context else autoplay
    }

    /** `update_context_index`. */
    function WithIndex(kind: Kind, i: nat): (q: Queue)
      requires GetContext(kind).Some?
      ensures q.next == next && q.fillUp == fillUp
      ensures q.GetContext(kind).Some? && q.GetContext(kind).value.index == i
    {
      if kind == DefaultContext then this.(context := Some(context.value.(index := i)))
      else this.(autoplay := Some(autoplay.value.(index := i)))
    }

    function Push(t: Track): Queue { this.(next := next + [t]) }

    predicate Bounded() { |next| <= 80 && |prev| <= 10 }
  }

  /** `Underflow` is an unsigned subtraction below zero. */
  datatype Reply<T> = Ok(value: T) | NoContext | NoSuchTrack | Underflow

  // ---- Operations

  function Decimal(n: nat): string {
    if n < 10 then ["0123456789"[n]] else Decimal(n / 10) + ["0123456789"[n % 10]]
  }

  function NewDelimiter(iteration: nat): (t: Track)
    ensures t.IsDelimiter()
  {
    Track("spotify:" + DELIMITER, DELIMITER + Decimal(iteration), FromContext, None, false)
  }

  /** `is_skip_track`: the initial track of the active context is left out of the first pass. */
  predicate IsSkipTrack(q: Queue, uri: string, iteration: Option<nat>) {
    var ctx := q.GetContext(q.active);
    ctx.Some? && ctx.value.initialTrack == Some(uri) && (iteration.None? || iteration == Some(0))
  }

  function Left(q: Queue, i: nat): nat
    requires q.GetContext(q.fillUp).Some?
  {
    var n := |q.GetContext(q.fillUp).value.tracks|;
    if i < n then n - i else 0
  }

  /** The loop of `fill_up_next_tracks` from position `i`; it ends for every queue. */
  function Fill(q: Queue, i: nat, iteration: nat): (r: Queue)
    requires q.GetContext(q.fillUp).Some?
    ensures r.GetContext(r.fillUp).Some? && q.next <= r.next
    ensures |r.next| <= if |q.next| < MAX_NEXT then MAX_NEXT else |q.next|
    decreases if |q.next| < MAX_NEXT then MAX_NEXT - |q.next| else 0, Left(q, i)
  {
    if |q.next| >= MAX_NEXT then q.WithIndex(q.fillUp, i)
    else
      var tracks := q.GetContext(q.fillUp).value.tracks;
      if i < |tracks| then
        if tracks[i].provider == Unavailable || IsSkipTrack(q, tracks[i].uri, Some(iteration))
        then Fill(q, i + 1, iteration)
        else Fill(q.Push(tracks[i]), i + 1, iteration)
      else if q.repeatContext then Fill(q.Push(NewDelimiter(iteration)), 0, iteration + 1)
      else if q.fillUp == DefaultContext && q.autoplay.Some? then
        var handed := q.WithIndex(DefaultContext, i).(fillUp := AutoplayContext);
        Fill(handed.Push(NewDelimiter(iteration)), q.autoplay.value.index, iteration)
      else q.WithIndex(q.fillUp, i)
  }

  function FillUp(q: Queue): (r: Reply<Queue>)
    ensures r.Ok? ==> q.next <= r.value.next
    ensures r.Ok? ==> |r.value.next| <= if |q.next| < MAX_NEXT then MAX_NEXT else |q.next|
  {
    var ctx := q.GetContext(q.fillUp);
    if ctx.None? then NoContext else Ok(Fill(q, ctx.value.index, ctx.value.page))
  }

  function PushPrev(prev: seq<Track>, t: Track): (r: seq<Track>)
    ensures |prev| <= MAX_PREV ==> |r| <= MAX_PREV
    ensures |r| > 0 && r[|r| - 1] == t
  {
    (if |prev| >= MAX_PREV then prev[1..] else prev) + [t]
  }

  /** The old track leaves the player; only context tracks are remembered. */
  function Retire(q: Queue): Queue {
    if q.track.Some? && q.track.value.FromAnyContext()
    then q.(track := None, prev := PushPrev(q.prev, q.track.value))
    else q.(track := None)
  }

  /** The loop of `next_track` that skips delimiters and unavailable tracks. */
  function Advance(q: Queue): (r: (Option<Track>, Queue))
    ensures r.0.Some? ==> r.0.value.Playable()
    ensures |q.prev| <= MAX_PREV ==> |r.1.prev| <= MAX_PREV
    ensures |r.1.next| <= |q.next|
    decreases |q.next|
  {
    if q.next == [] then (None, q)
    else
      var t, rest := q.next[0], q.(next := q.next[1..]);
      if t.IsDelimiter() then Advance(rest.(prev := PushPrev(q.prev, t)))
      else if t.provider == Unavailable then Advance(rest)
      else (Some(t), rest)
  }

  /** What the new track does to the active context and the reported position. */
  function Announce(q: Queue, t: Track): Queue {
    var moved := if t.provider == FromAutoplay then q.(active := AutoplayContext) else q;
    var position := if t.provider == FromQueue || t.provider == FromAutoplay then None else t.contextIndex;
    moved.(index := position, track := Some(t))
  }

  /** The reply is the new track, if there is one; the queue is what is left behind in every case. */
  function NextTrack(q: Queue): (Reply<Option<Track>>, Queue) {
    var (t, advanced) := Advance(Retire(q.(repeatTrack := false)));
    if t.None? then (Ok(None), advanced)
    else
      var filled := FillUp(advanced);
      if filled.Ok? then (Ok(t), Announce(filled.value, t.value)) else (NoContext, advanced)
  }

  function Truncate(ts: seq<Track>): (r: seq<Track>)
    ensures |r| <= MAX_NEXT && r <= ts
  {
    if |ts| <= MAX_NEXT then ts else ts[..MAX_NEXT]
  }

  /** The part of `prev_track` before it looks for the previous track. */
  function StepBack(q: Queue): Queue {
    var next := if q.track.Some? && q.track.value.FromAnyContext() then [q.track.value] + q.next else q.next;
    if q.prev != [] && q.prev[|q.prev| - 1].IsDelimiter() then
      var room := if |next| >= MAX_NEXT then next[..|next| - 1] else next;
      q.(track := None, next := Truncate([q.prev[|q.prev| - 1]] + room), prev := q.prev[..|q.prev| - 1])
    else q.(track := None, next := Truncate(next))
  }

  /** The part after it: the last track of the history comes back. */
  function TakeBack(back: Queue): (Reply<Option<Track>>, Queue) {
    if back.prev == [] then (Ok(None), back)
    else
      var t, rest := back.prev[|back.prev| - 1], back.(prev := back.prev[..|back.prev| - 1]);
      var moved :=
        if rest.active == AutoplayContext && t.provider == FromContext then rest.(active := DefaultContext) else rest;
      var filled := FillUp(moved);
      if !filled.Ok? then (NoContext, moved)
      else
        var q' := filled.value.(track := Some(t));
        (Ok(Some(t)), if q'.index.Some? && q'.index.value > 0 then q'.(index := Some(q'.index.value - 1)) else q')
  }

  function PrevTrack(q: Queue): (Reply<Option<Track>>, Queue) { TakeBack(StepBack(q)) }

  /** The number of queued tracks at the front. */
  function QueuedPrefix(ts: seq<Track>): (n: nat)
    ensures n <= |ts|
    ensures forall i :: 0 <= i < n ==> ts[i].provider == FromQueue
    ensures n < |ts| ==> ts[n].provider != FromQueue
  {
    if ts == [] || ts[0].provider != FromQueue then 0 else 1 + QueuedPrefix(ts[1..])
  }

  function ClearNext(q: Queue): Queue { q.(next := q.next[..QueuedPrefix(q.next)]) }

  function NotQueued(ts: seq<Track>): (r: seq<Track>)
    ensures |r| <= |ts|
  {
    if ts == [] then []
    else NotQueued(ts[..|ts| - 1]) + (if ts[|ts| - 1].provider == FromQueue then [] else [ts[|ts| - 1]])
  }

  function ClearQueue(q: Queue): Reply<Queue> { FillUp(q.(next := NotQueued(q.next))) }

  function AddToQueue(q: Queue, t: Track): Queue {
    var added := t.(uid := "q" + Decimal(q.queueCount), provider := FromQueue, queued := true);
    var n := QueuedPrefix(q.next);
    q.(queueCount := q.queueCount + 1, next := Truncate(q.next[..n] + [added] + q.next[n..]))
  }

  function WithoutUri(ts: seq<Track>, uri: string): (r: seq<Track>)
    ensures |r| <= |ts|
  {
    if ts == [] then []
    else WithoutUri(ts[..|ts| - 1], uri) + (if ts[|ts| - 1].uri == uri then [] else [ts[|ts| - 1]])
  }

  /** The track is gone from both lists; it may come back from the context. */
  function Marked(q: Queue, uri: string): Queue {
    q.(next := WithoutUri(q.next, uri), prev := WithoutUri(q.prev, uri), unavailable := q.unavailable + [uri])
  }

  function MarkUnavailable(q: Queue, uri: string): Reply<Queue> { FillUp(Marked(q, uri)) }

  /** The ten tracks before position `i`, oldest first. */
  function Before(tracks: seq<Track>, i: nat): (r: seq<Track>)
    requires i <= |tracks|
    ensures |r| <= MAX_PREV
  {
    tracks[if i > MAX_PREV then i - MAX_PREV else 0..i]
  }

  /** A queued current track, or the initial track of a shuffle, stays when playback is reset. */
  predicate KeepsTrack(q: Queue) {
    || (q.track.Some? && q.track.value.provider == FromQueue)
    || IsSkipTrack(q, if q.track.Some? then q.track.value.uri else "", None)
  }

  /** The reset up to the current track: positions set, track chosen. */
  function Placed(q: Queue, i: nat): (r: Reply<Queue>)
    ensures r.Ok? ==> q.GetContext(q.active).Some? && i <= |q.GetContext(q.active).value.tracks|
    ensures r.NoContext? <==> q.GetContext(q.active).None?
  {
    var ctx := q.GetContext(q.active);
    if ctx.None? then NoContext
    else
      var tracks := ctx.value.tracks;
      var placed := q.WithIndex(q.active, i + 1).(index := Some(i), fillUp := q.active);
      if KeepsTrack(q) then (if i > |tracks| then Underflow else Ok(placed))
      else if i >= |tracks| then NoSuchTrack
      else Ok(placed.(track := Some(tracks[i])))
  }

  /** What a reset that fails has changed already. */
  function Abandoned(q: Queue, i: nat): Queue {
    var moved := q.(index := Some(i));
    match Placed(q, i)
    case Ok(placed) => placed
    case NoContext => moved
    case NoSuchTrack => moved.WithIndex(q.active, i + 1).(fillUp := q.active)
    case Underflow => moved.WithIndex(q.active, i + 1).(fillUp := q.active, prev := [])
  }

  /** `reset_playback_to_position`. */
  function ResetTo(q: Queue, i: nat): Reply<Queue> {
    var placed := Placed(q, i);
    if !placed.Ok? then placed
    else FillUp(ClearNext(placed.value.(prev := Before(q.GetContext(q.active).value.tracks, i))))
  }
}
