/**
 The order in which the queue plays (connect/src/state/tracks.rs:105-163, 295-364).

 The reference is what a listener expects: queued tracks, the rest of the context, then the
 autoplay context or, when repeating, the context over and over. Filling the buffer moves
 tracks from that future into `next` without loss, gain or reordering, so every run of
 `next_track` plays the reference, one track per call.
 */
module QueueOrder {
  import opened Prelude
  import opened PlayQueue

  // ---- The reference order

  function Playables(ts: seq<Track>): seq<Track> {
    if ts == [] then [] else Playables(ts[..|ts| - 1]) + (if ts[|ts| - 1].Playable() then [ts[|ts| - 1]] else [])
  }

  function Take(ts: seq<Track>, n: nat): (r: seq<Track>)
    ensures |r| <= n
  {
    if n <= |ts| then ts[..n] else ts
  }

  function From(ts: seq<Track>, i: nat): seq<Track> {
    if i <= |ts| then ts[i..] else []
  }

  /** The first `n` tracks of a list that is repeated for ever. */
  function CycleTake(ts: seq<Track>, n: nat): (r: seq<Track>)
    decreases n
  {
    if n == 0 || ts == [] then [] else if n <= |ts| then ts[..n] else ts + CycleTake(ts, n - |ts|)
  }

  function TracksOf(q: Queue, kind: Kind): seq<Track> {
    if q.GetContext(kind).Some? then q.GetContext(kind).value.tracks else []
  }

  /** At least the first `n` tracks to play after position `i` of a context. */
  function Reference(q: Queue, kind: Kind, i: nat, n: nat): seq<Track> {
    var here := Playables(From(TracksOf(q, kind), i));
    if q.repeatContext then here + CycleTake(Playables(TracksOf(q, kind)), n)
    else if kind == DefaultContext && q.autoplay.Some? then
      here + Playables(From(q.autoplay.value.tracks, q.autoplay.value.index))
    else here
  }

  /** The next `n` tracks: those in the buffer, then the reference from position `i` of the fill-up context. */
  function UpcomingAt(q: Queue, i: nat, n: nat): seq<Track> {
    Take(Playables(q.next) + Reference(q, q.fillUp, i, n), n)
  }

  function Index(q: Queue): nat {
    if q.GetContext(q.fillUp).Some? then q.GetContext(q.fillUp).value.index else 0
  }

  function Upcoming(q: Queue, n: nat): seq<Track> { UpcomingAt(q, Index(q), n) }

  // ---- What the results assume, and what every run keeps

  predicate NoDelimiters(ts: seq<Track>) { forall i :: 0 <= i < |ts| ==> !ts[i].IsDelimiter() }

  /** Contexts hold no delimiters of their own, and no shuffle has set an initial track. */
  predicate PlainContexts(q: Queue) {
    && NoDelimiters(TracksOf(q, DefaultContext)) && NoDelimiters(TracksOf(q, AutoplayContext))
    && (q.context.Some? ==> q.context.value.initialTrack.None?)
    && (q.autoplay.Some? ==> q.autoplay.value.initialTrack.None?)
  }

  /** Everything but the buffer and the fill position is the same. */
  predicate SameSource(q: Queue, r: Queue) {
    && r.repeatContext == q.repeatContext
    && (r.context.Some? <==> q.context.Some?) && (r.autoplay.Some? <==> q.autoplay.Some?)
    && (q.context.Some? ==> r.context.value == q.context.value.(index := r.context.value.index))
    && (q.autoplay.Some? ==> r.autoplay.value == q.autoplay.value.(index := r.autoplay.value.index))
    && (q.fillUp == AutoplayContext ==> r.fillUp == AutoplayContext)
    && (r.fillUp == DefaultContext && q.autoplay.Some? ==> r.autoplay.value.index == q.autoplay.value.index)
  }

  // ---- Lists

  lemma {:induction false} PlayablesAppend(a: seq<Track>, b: seq<Track>)
    ensures Playables(a + b) == Playables(a) + Playables(b)
  {
    if b == [] {
      assert a + b == a;
    } else {
      PlayablesAppend(a, b[..|b| - 1]);
      assert (a + b)[..|a + b| - 1] == a + b[..|b| - 1];
    }
  }

  lemma PlayablesPush(a: seq<Track>, t: Track)
    ensures Playables(a + [t]) == Playables(a) + (if t.Playable() then [t] else [])
  {
    assert (a + [t])[..|a|] == a;
  }

  lemma PlayablesFirst(ts: seq<Track>)
    requires ts != []
    ensures Playables(ts) == (if ts[0].Playable() then [ts[0]] else []) + Playables(ts[1..])
  {
    PlayablesAppend([ts[0]], ts[1..]);
    PlayablesPush([], ts[0]);
    assert ts == [ts[0]] + ts[1..] && [ts[0]] == [] + [ts[0]];
  }

  /** Moving on by one position. */
  lemma FromStep(ts: seq<Track>, i: nat)
    requires i < |ts|
    ensures Playables(From(ts, i)) == (if ts[i].Playable() then [ts[i]] else []) + Playables(From(ts, i + 1))
  {
    PlayablesFirst(ts[i..]);
    assert ts[i..][1..] == ts[i + 1..];
  }

  lemma {:induction false} CycleLength(ts: seq<Track>, n: nat)
    ensures |CycleTake(ts, n)| == if ts == [] then 0 else n
    decreases n
  {
    if ts != [] && n > |ts| { CycleLength(ts, n - |ts|); }
  }

  /** A cycle begins with the list and goes on as the cycle. */
  lemma {:induction false} CycleUnrolls(ts: seq<Track>, n: nat)
    ensures CycleTake(ts, n) <= ts + CycleTake(ts, n)
    decreases n
  {
    if ts != [] && n > |ts| {
      CycleUnrolls(ts, n - |ts|);
      var tail := CycleTake(ts, n - |ts|);
      assert ts + CycleTake(ts, n) == ts + (ts + tail);
      assert tail <= ts + tail;
    }
  }

  lemma TakePrefix(x: seq<Track>, a: seq<Track>, b: seq<Track>, n: nat)
    requires a <= b && (|a| >= n || a == b)
    ensures Take(x + a, n) == Take(x + b, n)
  {
  }

  /** Asking for more tracks never changes the first ones. */
  lemma {:induction false} CycleGrows(ts: seq<Track>, n: nat)
    ensures CycleTake(ts, n) <= CycleTake(ts, n + 1)
    decreases n
  {
    if ts != [] && n > |ts| { CycleGrows(ts, n - |ts|); }
  }

  // ---- Filling conserves the future

  lemma SameSourceTrans(a: Queue, b: Queue, c: Queue)
    requires SameSource(a, b) && SameSource(b, c)
    ensures SameSource(a, c)
  {
  }

  lemma PlainStays(q: Queue, r: Queue)
    requires PlainContexts(q) && SameSource(q, r)
    ensures PlainContexts(r)
  {
  }

  lemma NotSkipped(q: Queue, uri: string, iteration: Option<nat>)
    requires PlainContexts(q)
    ensures !IsSkipTrack(q, uri, iteration)
  {
  }

  /** Only the buffer and the fill position differ, so the reference is the same. */
  lemma ReferenceSame(q: Queue, r: Queue, i: nat, n: nat)
    requires SameSource(q, r) && r.fillUp == q.fillUp
    ensures Reference(r, q.fillUp, i, n) == Reference(q, q.fillUp, i, n)
  {
    hide Playables, From, CycleTake;
  }

  lemma StoreIndex(q: Queue, i: nat, n: nat)
    requires q.GetContext(q.fillUp).Some?
    ensures SameSource(q, q.WithIndex(q.fillUp, i))
    ensures Upcoming(q.WithIndex(q.fillUp, i), n) == UpcomingAt(q, i, n)
  {
    hide Reference, Playables;
    ReferenceSame(q, q.WithIndex(q.fillUp, i), i, n);
  }

  lemma PushTrack(q: Queue, i: nat, n: nat)
    requires q.GetContext(q.fillUp).Some? && i < |TracksOf(q, q.fillUp)|
    ensures var t := TracksOf(q, q.fillUp)[i]; UpcomingAt(q.Push(t), i + 1, n) == UpcomingAt(q, i, n)
    ensures var t := TracksOf(q, q.fillUp)[i]; !t.Playable() ==> UpcomingAt(q, i + 1, n) == UpcomingAt(q, i, n)
  {
    hide Playables, CycleTake;
    var ts := TracksOf(q, q.fillUp);
    var t := ts[i];
    FromStep(ts, i);
    PlayablesPush(q.next, t);
    var one := if t.Playable() then [t] else [];
    assert Reference(q, q.fillUp, i, n) == one + Reference(q, q.fillUp, i + 1, n);
    assert Playables(q.next) + (one + Reference(q, q.fillUp, i + 1, n)) ==
           Playables(q.next) + one + Reference(q, q.fillUp, i + 1, n);
  }

  lemma PushRepeat(q: Queue, i: nat, n: nat, delimiter: Track)
    requires q.repeatContext && |TracksOf(q, q.fillUp)| <= i && delimiter.IsDelimiter()
    ensures UpcomingAt(q.Push(delimiter), 0, n) == UpcomingAt(q, i, n)
  {
    hide Playables, CycleTake, Reference;
    var all := Playables(TracksOf(q, q.fillUp));
    ReferenceAround(q, i, n, delimiter);
    PlayablesPush(q.next, delimiter);
    CycleLength(all, n);
    CycleUnrolls(all, n);
    if all == [] { assert all + CycleTake(all, n) == CycleTake(all, n); }
    hide Take;
    TakePrefix(Playables(q.next), CycleTake(all, n), all + CycleTake(all, n), n);
  }

  /** At the end of a pass the cycle comes next; at its beginning, the context first. */
  lemma ReferenceAround(q: Queue, i: nat, n: nat, t: Track)
    requires q.repeatContext && |TracksOf(q, q.fillUp)| <= i
    ensures var all := Playables(TracksOf(q, q.fillUp));
            && Reference(q, q.fillUp, i, n) == CycleTake(all, n)
            && Reference(q.Push(t), q.fillUp, 0, n) == all + CycleTake(all, n)
  {
    hide Playables, CycleTake;
    var ts := TracksOf(q, q.fillUp);
    NoneLeft(ts, i);
    assert ts[0..] == ts;
  }

  lemma NoneLeft(ts: seq<Track>, i: nat)
    requires |ts| <= i
    ensures Playables(From(ts, i)) == []
  {
  }

  /** The hand-over of `fill_up_next_tracks` to the autoplay context. */
  function HandOver(q: Queue, i: nat, delimiter: Track): Queue
    requires q.context.Some?
  {
    q.WithIndex(DefaultContext, i).(fillUp := AutoplayContext).Push(delimiter)
  }

  lemma PushHandOver(q: Queue, i: nat, n: nat, delimiter: Track)
    requires !q.repeatContext && q.fillUp == DefaultContext && q.context.Some? && q.autoplay.Some?
    requires |TracksOf(q, q.fillUp)| <= i && delimiter.IsDelimiter()
    ensures SameSource(q, HandOver(q, i, delimiter))
    ensures UpcomingAt(HandOver(q, i, delimiter), q.autoplay.value.index, n) == UpcomingAt(q, i, n)
  {
    hide Playables, CycleTake;
    NoneLeft(TracksOf(q, q.fillUp), i);
    PlayablesPush(q.next, delimiter);
    assert Reference(q, q.fillUp, i, n) == Playables(From(q.autoplay.value.tracks, q.autoplay.value.index));
  }

  /** Filling the buffer changes neither what comes next nor its order. */
  lemma {:induction false} FillKeeps(q: Queue, i: nat, iteration: nat, n: nat)
    requires q.GetContext(q.fillUp).Some? && PlainContexts(q)
    ensures SameSource(q, Fill(q, i, iteration))
    ensures Upcoming(Fill(q, i, iteration), n) == UpcomingAt(q, i, n)
    decreases if |q.next| < MAX_NEXT then MAX_NEXT - |q.next| else 0, Left(q, i)
  {
    hide UpcomingAt;
    var ts := TracksOf(q, q.fillUp);
    if |q.next| >= MAX_NEXT {
      StoreIndex(q, i, n);
    } else if i < |ts| {
      NotSkipped(q, ts[i].uri, Some(iteration));
      PushTrack(q, i, n);
      if ts[i].provider == Unavailable {
        FillKeeps(q, i + 1, iteration, n);
      } else {
        FillKeeps(q.Push(ts[i]), i + 1, iteration, n);
      }
    } else if q.repeatContext {
      PushRepeat(q, i, n, NewDelimiter(iteration));
      FillKeeps(q.Push(NewDelimiter(iteration)), 0, iteration + 1, n);
    } else if q.fillUp == DefaultContext && q.autoplay.Some? {
      var handed := HandOver(q, i, NewDelimiter(iteration));
      PushHandOver(q, i, n, NewDelimiter(iteration));
      PlainStays(q, handed);
      FillKeeps(handed, q.autoplay.value.index, iteration, n);
      SameSourceTrans(q, handed, Fill(q, i, iteration));
    } else {
      StoreIndex(q, i, n);
    }
  }

  // ---- The buffer never runs dry while tracks remain

  predicate Spaced(ts: seq<Track>) {
    && (forall i :: 0 <= i < |ts| ==> ts[i].IsDelimiter() || ts[i].Playable())
    && (forall i :: 0 <= i < |ts| - 1 ==> !ts[i].IsDelimiter() || !ts[i + 1].IsDelimiter())
  }

  /** The fill loop would push a delimiter next. */
  predicate DelimiterNext(q: Queue, i: nat) {
    && Playables(From(TracksOf(q, q.fillUp), i)) == []
    && (q.repeatContext || (q.fillUp == DefaultContext && q.autoplay.Some?))
  }

  predicate NothingToRepeat(q: Queue) {
    q.repeatContext && Playables(TracksOf(q, q.fillUp)) == []
  }

  /** No two delimiters follow each other, unless there is nothing to play between them. */
  predicate SpacedAt(q: Queue, i: nat) {
    || NothingToRepeat(q)
    || (Spaced(q.next) && (q.next != [] && q.next[|q.next| - 1].IsDelimiter() ==> !DelimiterNext(q, i)))
  }

  /** The buffer is full, or everything that is left to play is in it. */
  ghost predicate Filled(q: Queue) {
    |q.next| >= MAX_NEXT || (forall n :: Reference(q, q.fillUp, Index(q), n) == [])
  }

  lemma {:induction false} PlayablesOfSpaced(ts: seq<Track>)
    requires Spaced(ts) && |ts| >= 2
    ensures Playables(ts) != []
  {
    var n := |ts| - 1;
    assert ts[n].Playable() || ts[n - 1].Playable();
    assert ts[..n][..n - 1] == ts[..n - 1];
    assert ts[..n][n - 1] == ts[n - 1];
  }

  lemma {:induction false} PlayablesSubset(ts: seq<Track>, i: nat)
    requires Playables(ts) == []
    ensures Playables(From(ts, i)) == []
  {
    if i <= |ts| {
      PlayablesAppend(ts[..i], ts[i..]);
      assert ts[..i] + ts[i..] == ts;
    }
  }

  /** Nothing to repeat means nothing to come. */
  lemma NothingComes(q: Queue, i: nat, n: nat)
    requires NothingToRepeat(q)
    ensures Reference(q, q.fillUp, i, n) == []
  {
    hide Playables;
    PlayablesSubset(TracksOf(q, q.fillUp), i);
  }

  lemma SpacedPush(q: Queue, t: Track)
    requires Spaced(q.next) && t.Playable()
    ensures Spaced(q.next + [t])
  {
  }

  lemma SpacedPushDelimiter(q: Queue, i: nat, t: Track)
    requires SpacedAt(q, i) && !NothingToRepeat(q) && DelimiterNext(q, i) && t.IsDelimiter()
    ensures Spaced(q.next + [t])
  {
  }

  lemma SpacedSkip(q: Queue, i: nat)
    requires i < |TracksOf(q, q.fillUp)| && SpacedAt(q, i) && PlainContexts(q)
    ensures var t := TracksOf(q, q.fillUp)[i];
            if t.provider == Unavailable then SpacedAt(q, i + 1) else SpacedAt(q.Push(t), i + 1)
  {
    hide Playables;
    FromStep(TracksOf(q, q.fillUp), i);
    var t := TracksOf(q, q.fillUp)[i];
    if t.provider != Unavailable {
      assert t.Playable();
      if Spaced(q.next) { SpacedPush(q, t); }
    }
  }

  lemma SpacedRepeat(q: Queue, i: nat, t: Track)
    requires q.repeatContext && |TracksOf(q, q.fillUp)| <= i && SpacedAt(q, i) && t.IsDelimiter()
    ensures SpacedAt(q.Push(t), 0)
  {
    hide Playables;
    var ts := TracksOf(q, q.fillUp);
    NoneLeft(ts, i);
    assert ts[0..] == ts;
    if !NothingToRepeat(q) { SpacedPushDelimiter(q, i, t); }
  }

  lemma SpacedHandOver(q: Queue, i: nat, t: Track)
    requires !q.repeatContext && q.fillUp == DefaultContext && q.context.Some? && q.autoplay.Some?
    requires |TracksOf(q, q.fillUp)| <= i && SpacedAt(q, i) && t.IsDelimiter()
    ensures SpacedAt(HandOver(q, i, t), q.autoplay.value.index)
  {
    hide Playables;
    NoneLeft(TracksOf(q, q.fillUp), i);
    SpacedPushDelimiter(q, i, t);
  }

  lemma StoreFilled(q: Queue, i: nat)
    requires q.GetContext(q.fillUp).Some? && SpacedAt(q, i)
    requires |q.next| >= MAX_NEXT ||
             (|TracksOf(q, q.fillUp)| <= i && !q.repeatContext && !(q.fillUp == DefaultContext && q.autoplay.Some?))
    ensures SpacedAt(q.WithIndex(q.fillUp, i), i) && Filled(q.WithIndex(q.fillUp, i))
  {
    hide Playables;
    NoneLeftAnywhere(TracksOf(q, q.fillUp), i);
  }

  lemma NoneLeftAnywhere(ts: seq<Track>, i: nat)
    ensures |ts| <= i ==> Playables(From(ts, i)) == []
  {
    if |ts| <= i { NoneLeft(ts, i); }
  }

  /** The loop ends with a full buffer or with its context used up, and keeps delimiters apart. */
  lemma {:induction false} FillStocks(q: Queue, i: nat, iteration: nat)
    requires q.GetContext(q.fillUp).Some? && PlainContexts(q) && SpacedAt(q, i)
    ensures var r := Fill(q, i, iteration); SpacedAt(r, Index(r)) && Filled(r)
    decreases if |q.next| < MAX_NEXT then MAX_NEXT - |q.next| else 0, Left(q, i)
  {
    hide SpacedAt, Filled;
    var ts := TracksOf(q, q.fillUp);
    if |q.next| >= MAX_NEXT {
      StoreFilled(q, i);
    } else if i < |ts| {
      NotSkipped(q, ts[i].uri, Some(iteration));
      SpacedSkip(q, i);
      if ts[i].provider == Unavailable {
        FillStocks(q, i + 1, iteration);
      } else {
        FillStocks(q.Push(ts[i]), i + 1, iteration);
      }
    } else if q.repeatContext {
      SpacedRepeat(q, i, NewDelimiter(iteration));
      FillStocks(q.Push(NewDelimiter(iteration)), 0, iteration + 1);
    } else if q.fillUp == DefaultContext && q.autoplay.Some? {
      var handed := HandOver(q, i, NewDelimiter(iteration));
      SpacedHandOver(q, i, NewDelimiter(iteration));
      PushHandOver(q, i, 0, NewDelimiter(iteration));
      PlainStays(q, handed);
      FillStocks(handed, q.autoplay.value.index, iteration);
    } else {
      StoreFilled(q, i);
    }
  }

  /** The fill-up context is used up and nothing takes over from it. */
  predicate Exhausted(q: Queue) {
    |TracksOf(q, q.fillUp)| <= Index(q) && !q.repeatContext && !(q.fillUp == DefaultContext && q.autoplay.Some?)
  }

  /** For every queue whatsoever, the loop ends with a full buffer or at the very end of its contexts. */
  lemma {:induction false} FillEnds(q: Queue, i: nat, iteration: nat)
    requires q.GetContext(q.fillUp).Some?
    ensures var r := Fill(q, i, iteration); q.next <= r.next && (|r.next| >= MAX_NEXT || Exhausted(r))
    decreases if |q.next| < MAX_NEXT then MAX_NEXT - |q.next| else 0, Left(q, i)
  {
    var ts := TracksOf(q, q.fillUp);
    if |q.next| < MAX_NEXT {
      if i < |ts| {
        if ts[i].provider == Unavailable || IsSkipTrack(q, ts[i].uri, Some(iteration)) {
          FillEnds(q, i + 1, iteration);
        } else {
          FillEnds(q.Push(ts[i]), i + 1, iteration);
        }
      } else if q.repeatContext {
        FillEnds(q.Push(NewDelimiter(iteration)), 0, iteration + 1);
      } else if q.fillUp == DefaultContext && q.autoplay.Some? {
        FillEnds(HandOver(q, i, NewDelimiter(iteration)), q.autoplay.value.index, iteration);
      }
    }
  }

  // ---- Runs of next_track

  /** What holds between two calls of `next_track`. */
  ghost predicate Ready(q: Queue) {
    q.GetContext(q.fillUp).Some? && PlainContexts(q) && SpacedAt(q, Index(q)) && Filled(q)
  }

  /** While anything is left to play, some of it is in the buffer. */
  lemma BufferIsStocked(q: Queue, n: nat)
    requires Ready(q) && Playables(q.next) == []
    ensures Upcoming(q, n) == []
  {
    hide Playables, CycleTake;
    if NothingToRepeat(q) {
      NothingComes(q, Index(q), n);
    } else if |q.next| >= MAX_NEXT {
      PlayablesOfSpaced(q.next);
      assert false;
    }
  }

  lemma {:induction false} AdvanceTakesFirst(q: Queue)
    ensures var (t, r) := Advance(q);
            && r == q.(next := r.next, prev := r.prev)
            && (exists k :: 0 <= k <= |q.next| && r.next == q.next[k..])
            && (t.None? ==> Playables(q.next) == [] && r.next == [])
            && (t.Some? ==> Playables(q.next) == [t.value] + Playables(r.next))
    decreases |q.next|
  {
    hide Playables;
    if q.next == [] {
      assert Playables([]) == [] by { PlayablesNone(); }
      assert q.next == q.next[0..];
    } else {
      PlayablesFirst(q.next);
      var rest := q.(next := q.next[1..]);
      if q.next[0].IsDelimiter() {
        AdvanceTakesFirst(rest.(prev := PushPrev(q.prev, q.next[0])));
      } else if q.next[0].provider == Unavailable {
        AdvanceTakesFirst(rest);
      }
      var r := Advance(q).1;
      assert exists k :: 0 <= k <= |q.next| && r.next == q.next[k..] by {
        var k :| 0 <= k <= |rest.next| && r.next == rest.next[k..];
        assert r.next == q.next[k + 1..];
      }
    }
  }

  lemma PlayablesNone()
    ensures Playables([]) == []
  {
  }

  lemma ReferenceGrows(q: Queue, kind: Kind, i: nat, n: nat)
    ensures Reference(q, kind, i, n) <= Reference(q, kind, i, n + 1)
    ensures |Reference(q, kind, i, n)| >= n || Reference(q, kind, i, n) == Reference(q, kind, i, n + 1)
  {
    hide Playables;
    var all := Playables(TracksOf(q, kind));
    CycleGrows(all, n);
    CycleLength(all, n);
  }

  lemma TakeFirst(t: Track, rest: seq<Track>, a: seq<Track>, b: seq<Track>, n: nat)
    requires a <= b && (|a| >= n || a == b)
    ensures Take([t] + rest + b, n + 1) == [t] + Take(rest + a, n)
  {
    TakePrefix(rest, a, b, n);
    assert [t] + rest + b == [t] + (rest + b);
  }

  lemma SpacedSuffix(q: Queue, r: Queue, k: nat)
    requires SpacedAt(q, Index(q)) && k <= |q.next| && r.next == q.next[k..]
    requires SameSource(q, r) && r.fillUp == q.fillUp && Index(r) == Index(q)
    ensures SpacedAt(r, Index(r))
  {
    hide Playables;
  }

  /** Two queues that agree on buffer, contexts and fill position have the same future. */
  lemma SameFuture(q: Queue, r: Queue, n: nat)
    requires r.next == q.next && r.fillUp == q.fillUp && r.context == q.context && r.autoplay == q.autoplay
    requires r.repeatContext == q.repeatContext
    ensures Upcoming(r, n) == Upcoming(q, n) && SameSource(q, r) && (Ready(q) ==> Ready(r))
  {
    hide Playables, From, CycleTake;
    forall m: nat { ReferenceSame(q, r, Index(q), m); }
  }

  /** `fill_up_next_tracks` after some entries were taken from the buffer. */
  lemma Refill(q: Queue, n: nat)
    requires q.GetContext(q.fillUp).Some? && PlainContexts(q) && SpacedAt(q, Index(q))
    ensures FillUp(q).Ok?
    ensures Ready(FillUp(q).value) && Upcoming(FillUp(q).value, n) == Upcoming(q, n)
  {
    hide UpcomingAt, SpacedAt, Filled;
    var ctx := q.GetContext(q.fillUp).value;
    FillKeeps(q, ctx.index, ctx.page, n);
    FillStocks(q, ctx.index, ctx.page);
    PlainStays(q, FillUp(q).value);
  }

  /** One call plays the next track of the reference, or none when nothing is left. */
  lemma NextTrackPlays(q: Queue, n: nat)
    requires Ready(q)
    ensures var (r, q') := NextTrack(q);
            && r.Ok?
            && (r.value.None? ==> Upcoming(q, n) == [])
            && (r.value.Some? ==> Ready(q') && Upcoming(q, n + 1) == [r.value.value] + Upcoming(q', n))
  {
    hide Playables, SpacedAt, Filled, Reference, FillUp, Take;
    var start := Retire(q.(repeatTrack := false));
    SameFuture(q, start, n);
    SameFuture(q, start, n + 1);
    var (t, advanced) := Advance(start);
    AdvanceTakesFirst(start);
    if t.None? {
      BufferIsStocked(q, n);
    } else {
      var k :| 0 <= k <= |start.next| && advanced.next == start.next[k..];
      SpacedSuffix(start, advanced, k);
      Refill(advanced, n);
      var filled := FillUp(advanced).value;
      SameFuture(filled, Announce(filled, t.value), n);
      ReferenceGrows(start, start.fillUp, Index(start), n);
      ReferenceSame(start, advanced, Index(start), n);
      TakeFirst(t.value, Playables(advanced.next), Reference(start, start.fillUp, Index(start), n),
                Reference(start, start.fillUp, Index(start), n + 1), n);
    }
  }

  /** The tracks played by up to `n` calls of `next_track`, and the queue they leave. */
  function Plays(q: Queue, n: nat): (r: (seq<Track>, Queue))
    ensures |r.0| <= n
    decreases n
  {
    if n == 0 then ([], q)
    else
      var (reply, q') := NextTrack(q);
      if !reply.Ok? || reply.value.None? then ([], q')
      else var (ts, last) := Plays(q', n - 1); ([reply.value.value] + ts, last)
  }

  /** Main result: every run of `next_track` plays exactly the reference. */
  lemma {:induction false} PlaysUpcoming(q: Queue, n: nat)
    requires Ready(q)
    ensures Plays(q, n).0 == Upcoming(q, n)
    ensures |Plays(q, n).0| == n ==> Ready(Plays(q, n).1)
    decreases n
  {
    hide Ready, UpcomingAt, NextTrack;
    if n == 0 {
      NothingUpcoming(q);
    } else {
      var (r, q') := NextTrack(q);
      NextTrackPlays(q, n - 1);
      NextTrackPlays(q, n);
      if r.value.Some? { PlaysUpcoming(q', n - 1); }
    }
  }

  lemma NothingUpcoming(q: Queue)
    ensures Upcoming(q, 0) == []
  {
  }

  /** Main result: at every point of a run, the buffer is exactly the next window of the reference. */
  lemma {:induction false} BufferIsWindow(q: Queue, k: nat)
    requires Ready(q) && |Plays(q, k).0| == k
    ensures var window := Playables(Plays(q, k).1.next);
            Upcoming(q, k + |window|) == Plays(q, k).0 + window
    ensures Filled(Plays(q, k).1)
    decreases k
  {
    hide Playables, Reference, UpcomingAt, NextTrack, SpacedAt;
    var q' := Plays(q, k).1;
    PlaysUpcoming(q, k);
    if k == 0 {
      WindowNow(q);
    } else {
      var r := NextTrack(q).1;
      NextTrackPlays(q, 0);
      BufferIsWindow(r, k - 1);
      NextTrackPlays(q, k - 1 + |Playables(q'.next)|);
    }
  }

  lemma WindowNow(q: Queue)
    ensures Upcoming(q, |Playables(q.next)|) == Playables(q.next)
  {
    hide Playables, Reference;
  }

  // ---- From reset_playback_to_position

  /** Queued tracks at the front are kept and played first. */
  function QueuedFirst(q: Queue): seq<Track> { q.next[..QueuedPrefix(q.next)] }

  lemma {:induction false} AllPlayable(ts: seq<Track>)
    requires forall i :: 0 <= i < |ts| ==> ts[i].Playable()
    ensures Playables(ts) == ts
  {
    if ts != [] { AllPlayable(ts[..|ts| - 1]); }
  }

  /**
   Main result: after a reset to position `i`, the first `n` calls of `next_track` play the
   leading queued tracks, then the reference after position `i` of the active context.
   */
  lemma ResetPlaysInOrder(q: Queue, i: nat, n: nat)
    requires PlainContexts(q) && NoDelimiters(QueuedFirst(q)) && ResetTo(q, i).Ok?
    ensures Ready(ResetTo(q, i).value)
    ensures Plays(ResetTo(q, i).value, n).0 == Take(QueuedFirst(q) + Reference(q, q.active, i + 1, n), n)
  {
    hide Playables, Reference, FillUp, Ready, Before, Take, SpacedAt;
    var cleared := Cleared(q, i);
    ClearedIsReady(q, i);
    Refill(cleared, n);
    PlaysUpcoming(ResetTo(q, i).value, n);
    ClearedFuture(q, i, n);
  }

  /** The queue that `reset_playback_to_position` fills up. */
  function Cleared(q: Queue, i: nat): Queue
    requires Placed(q, i).Ok?
  {
    ClearNext(Placed(q, i).value.(prev := Before(q.GetContext(q.active).value.tracks, i)))
  }

  lemma ClearedIsReady(q: Queue, i: nat)
    requires PlainContexts(q) && NoDelimiters(QueuedFirst(q)) && Placed(q, i).Ok?
    ensures var r := Cleared(q, i); r.GetContext(r.fillUp).Some? && PlainContexts(r) && SpacedAt(r, Index(r))
    ensures Cleared(q, i).next == QueuedFirst(q)
  {
    hide DelimiterNext, NothingToRepeat, PlainContexts, NoDelimiters;
    ClearedShape(q, i);
    hide Cleared;
    QueuedIsSpaced(q);
  }

  /** The contexts are as before but for the index, and the queued tracks are what is buffered. */
  lemma ClearedShape(q: Queue, i: nat)
    requires PlainContexts(q) && Placed(q, i).Ok?
    ensures var r := Cleared(q, i); r.GetContext(r.fillUp).Some? && PlainContexts(r) && r.next == QueuedFirst(q)
  {
    hide Before, KeepsTrack, NoDelimiters, QueuedPrefix;
  }

  lemma QueuedIsSpaced(q: Queue)
    requires NoDelimiters(QueuedFirst(q))
    ensures Spaced(QueuedFirst(q))
    ensures QueuedFirst(q) != [] ==> !QueuedFirst(q)[|QueuedFirst(q)| - 1].IsDelimiter()
  {
  }

  lemma ClearedFuture(q: Queue, i: nat, n: nat)
    requires PlainContexts(q) && NoDelimiters(QueuedFirst(q)) && Placed(q, i).Ok?
    ensures Upcoming(Cleared(q, i), n) == Take(QueuedFirst(q) + Reference(q, q.active, i + 1, n), n)
  {
    hide Before, Playables, From, CycleTake, Take, KeepsTrack;
    var r := Cleared(q, i);
    assert r.next == QueuedFirst(q);
    AllPlayable(r.next);
    assert Reference(r, r.fillUp, i + 1, n) == Reference(q, q.active, i + 1, n);
  }

  /** With repeat: the rest of the context, then its playable tracks round and round. */
  lemma {:induction false} CycleIsPeriodic(ts: seq<Track>, n: nat, j: nat)
    requires ts != [] && j < n
    ensures j < |CycleTake(ts, n)|
    ensures CycleTake(ts, n)[j] == if j < |ts| then ts[j] else CycleTake(ts, n)[j - |ts|]
    decreases n
  {
    CycleLength(ts, n);
    if j >= |ts| {
      CycleUnrolls(ts, n);
      hide CycleTake;
      assert CycleTake(ts, n)[j] == (ts + CycleTake(ts, n))[j];
    }
  }

  // ---- A reset beyond the end

  /** The current track stays: it is queued, or it is the initial track of a shuffle. */
  predicate StaysOn(q: Queue) {
    var uri := if q.track.Some? then q.track.value.uri else "";
    || (q.track.Some? && q.track.value.provider == FromQueue)
    || (q.GetContext(q.active).Some? && q.GetContext(q.active).value.initialTrack == Some(uri))
  }

  /** Main result: the reset subtracts below zero exactly beyond the end of a context whose track stays. */
  lemma ResetUnderflows(q: Queue, i: nat)
    ensures ResetTo(q, i).Underflow? <==>
            q.GetContext(q.active).Some? && StaysOn(q) && i > |TracksOf(q, q.active)|
    ensures ResetTo(q, i).NoSuchTrack? <==>
            q.GetContext(q.active).Some? && !StaysOn(q) && i >= |TracksOf(q, q.active)|
    ensures ResetTo(q, i).NoContext? <==> q.GetContext(q.active).None?
  {
    hide Fill, QueuedPrefix, Before;
  }

  /** Two such inputs: the initial track of a shuffle is playing, or a queued one. */
  lemma ResetBeyondEnd(q: Queue, t: Track)
    requires q.active == DefaultContext && q.track == Some(t)
    requires q.context.Some? && q.context.value.tracks == [t]
    requires q.context.value.initialTrack == Some(t.uri) || t.provider == FromQueue
    ensures ResetTo(q, 2).Underflow?
  {
    hide ResetTo;
    ResetUnderflows(q, 2);
  }
}
