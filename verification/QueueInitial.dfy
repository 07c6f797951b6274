/**
 The order after a shuffle that was started from a track (connect/src/state/options.rs:84-99,
 context.rs:386-397): the initial track is playing already, so the fill-up leaves it out.

 Leaving a track out is the same as finding it unavailable. So the queue behaves like the one whose
 context has that track masked as unavailable, and the play order of that one is known.
 */
module QueueInitial {
  import opened Prelude
  import opened PlayQueue
  import opened QueueOrder
  import opened QueueSupply

  // ---- Masking

  function MaskTrack(t: Track, uri: string): Track { if t.uri == uri then t.(provider := Unavailable) else t }

  function MaskAll(ts: seq<Track>, uri: string): (r: seq<Track>)
    ensures |r| == |ts|
    ensures forall i :: 0 <= i < |ts| ==> r[i] == MaskTrack(ts[i], uri)
  {
    seq(|ts|, i requires 0 <= i < |ts| => MaskTrack(ts[i], uri))
  }

  function MaskContext(ctx: StateContext, uri: string): StateContext {
    ctx.(tracks := MaskAll(ctx.tracks, uri), initialTrack := None)
  }

  function Masked(q: Queue, uri: string): Queue
    requires q.context.Some?
  {
    q.(context := Some(MaskContext(q.context.value, uri)))
  }

  predicate NoneFromAutoplay(ts: seq<Track>) { forall i :: 0 <= i < |ts| ==> ts[i].provider != FromAutoplay }

  /** The contexts after a shuffle from `uri`, not repeating; the track is not among the autoplay ones. */
  predicate StartedFrom(q: Queue, uri: string) {
    && !q.repeatContext
    && q.context.Some? && q.context.value.initialTrack == Some(uri) && q.context.value.page == 0
    && NoDelimiters(TracksOf(q, DefaultContext)) && NoDelimiters(TracksOf(q, AutoplayContext))
    && NoneFromAutoplay(TracksOf(q, DefaultContext)) && Absent(TracksOf(q, AutoplayContext), uri)
    && (q.autoplay.Some? ==> q.autoplay.value.initialTrack.None?)
    && q.GetContext(q.fillUp).Some?
  }

  /** Until the hand-over, nothing of the autoplay context is buffered or active. */
  predicate BeforeAutoplay(q: Queue) {
    q.fillUp == DefaultContext ==> q.active == DefaultContext && NoneFromAutoplay(q.next)
  }

  // ---- The masked queue behaves the same

  /** A track is skipped, or unavailable, exactly when its mask is unavailable and the mask is not skipped. */
  lemma SkippedIsMasked(q: Queue, uri: string, i: nat, iteration: nat)
    requires StartedFrom(q, uri) && BeforeAutoplay(q) && i < |TracksOf(q, q.fillUp)|
    requires q.fillUp == DefaultContext ==> iteration == 0
    ensures |TracksOf(Masked(q, uri), q.fillUp)| == |TracksOf(q, q.fillUp)|
    ensures var t, m := TracksOf(q, q.fillUp)[i], TracksOf(Masked(q, uri), q.fillUp)[i];
            && (PassedOver(q, t, iteration) <==> PassedOver(Masked(q, uri), m, iteration))
            && (!PassedOver(q, t, iteration) ==> m == t)
            && (q.fillUp == DefaultContext ==> t.provider != FromAutoplay)
  {
  }

  /** Filling keeps the contexts, and the hand-over comes before any autoplay track. */
  lemma {:induction false} MaskFill(q: Queue, uri: string, i: nat, iteration: nat)
    requires StartedFrom(q, uri) && BeforeAutoplay(q) && (q.fillUp == DefaultContext ==> iteration == 0)
    ensures var r := Fill(q, i, iteration);
            && StartedFrom(r, uri) && BeforeAutoplay(r)
            && Fill(Masked(q, uri), i, iteration) == Masked(r, uri)
            && (q.fillUp == AutoplayContext ==> r.fillUp == AutoplayContext)
    decreases Room(q.next), Left(q, i)
  {
    HasContexts(q, uri);
    hide StartedFrom, BeforeAutoplay, NewDelimiter, IsSkipTrack, MaskAll;
    var ts := TracksOf(q, q.fillUp);
    if |q.next| >= MAX_NEXT {
      StoredIndex(q, uri, i);
    } else if i < |ts| {
      SkippedIsMasked(q, uri, i, iteration);
      if PassedOver(q, ts[i], iteration) {
        MaskFill(q, uri, i + 1, iteration);
      } else {
        Pushed(q, uri, ts[i]);
        MaskFill(q.Push(ts[i]), uri, i + 1, iteration);
      }
    } else if q.fillUp == DefaultContext && q.autoplay.Some? {
      Handed(q, uri, i, NewDelimiter(iteration));
      MaskFill(HandOver(q, i, NewDelimiter(iteration)), uri, q.autoplay.value.index, iteration);
    } else {
      StoredIndex(q, uri, i);
    }
  }

  lemma HasContexts(q: Queue, uri: string)
    requires StartedFrom(q, uri)
    ensures q.context.Some? && q.GetContext(q.fillUp).Some? && !q.repeatContext
    ensures |TracksOf(Masked(q, uri), q.fillUp)| == |TracksOf(q, q.fillUp)|
  {
  }

  lemma Pushed(q: Queue, uri: string, t: Track)
    requires StartedFrom(q, uri) && BeforeAutoplay(q) && (q.fillUp == DefaultContext ==> t.provider != FromAutoplay)
    ensures StartedFrom(q.Push(t), uri) && BeforeAutoplay(q.Push(t))
    ensures Masked(q.Push(t), uri) == Masked(q, uri).Push(t)
  {
  }

  lemma Handed(q: Queue, uri: string, i: nat, t: Track)
    requires StartedFrom(q, uri) && q.fillUp == DefaultContext && q.autoplay.Some?
    ensures StartedFrom(HandOver(q, i, t), uri) && BeforeAutoplay(HandOver(q, i, t))
    ensures Masked(HandOver(q, i, t), uri) == HandOver(Masked(q, uri), i, t)
  {
  }

  lemma StoredIndex(q: Queue, uri: string, i: nat)
    requires StartedFrom(q, uri) && BeforeAutoplay(q)
    ensures StartedFrom(q.WithIndex(q.fillUp, i), uri) && BeforeAutoplay(q.WithIndex(q.fillUp, i))
    ensures Masked(q, uri).GetContext(q.fillUp).Some?
    ensures Masked(q, uri).WithIndex(q.fillUp, i) == Masked(q.WithIndex(q.fillUp, i), uri)
  {
  }

  lemma MaskFillUp(q: Queue, uri: string)
    requires StartedFrom(q, uri) && BeforeAutoplay(q)
    ensures FillUp(q).Ok? && StartedFrom(FillUp(q).value, uri) && BeforeAutoplay(FillUp(q).value)
    ensures FillUp(Masked(q, uri)) == Ok(Masked(FillUp(q).value, uri))
    ensures q.fillUp == AutoplayContext ==> FillUp(q).value.fillUp == AutoplayContext
  {
    hide Fill;
    var ctx := q.GetContext(q.fillUp).value;
    MaskFill(q, uri, ctx.index, ctx.page);
  }

  lemma {:induction false} MaskAdvance(q: Queue, uri: string)
    requires q.context.Some?
    ensures var (t, r) := Advance(q);
            && r.context == q.context && Advance(Masked(q, uri)) == (t, Masked(r, uri))
            && (NoneFromAutoplay(q.next) ==> NoneFromAutoplay(r.next) && (t.Some? ==> t.value.provider != FromAutoplay))
    decreases |q.next|
  {
    hide MaskContext;
    if q.next != [] {
      var rest := q.(next := q.next[1..]);
      if q.next[0].IsDelimiter() {
        MaskAdvance(rest.(prev := PushPrev(q.prev, q.next[0])), uri);
      } else if q.next[0].provider == Unavailable {
        MaskAdvance(rest, uri);
      }
    }
  }

  lemma MaskNextTrack(q: Queue, uri: string)
    requires StartedFrom(q, uri) && BeforeAutoplay(q)
    ensures var (r, q') := NextTrack(q);
            && r.Ok? && NextTrack(Masked(q, uri)).0 == r
            && (r.value.Some? ==> StartedFrom(q', uri) && BeforeAutoplay(q') &&
                                  NextTrack(Masked(q, uri)).1 == Masked(q', uri))
  {
    hide Advance, FillUp, MaskContext;
    var start := Retire(q.(repeatTrack := false));
    assert Retire(Masked(q, uri).(repeatTrack := false)) == Masked(start, uri);
    MaskAdvance(start, uri);
    AdvanceTakesFirst(start);
    var (t, advanced) := Advance(start);
    if t.Some? {
      assert StartedFrom(advanced, uri) && BeforeAutoplay(advanced);
      MaskFillUp(advanced, uri);
    }
  }

  lemma {:induction false} MaskPlays(q: Queue, uri: string, n: nat)
    requires StartedFrom(q, uri) && BeforeAutoplay(q)
    ensures Plays(Masked(q, uri), n).0 == Plays(q, n).0
    decreases n
  {
    hide NextTrack, StartedFrom, BeforeAutoplay, Masked;
    if n > 0 {
      MaskNextTrack(q, uri);
      var (r, q') := NextTrack(q);
      if r.value.Some? { MaskPlays(q', uri, n - 1); }
    }
  }

  // ---- The order

  lemma {:induction false} MaskedPlayables(ts: seq<Track>, uri: string)
    ensures Playables(MaskAll(ts, uri)) == WithoutUri(Playables(ts), uri)
  {
    if ts != [] {
      var n := |ts| - 1;
      MaskedPlayables(ts[..n], uri);
      assert MaskAll(ts, uri)[..n] == MaskAll(ts[..n], uri);
      WithoutLast(Playables(ts[..n]), ts[n], uri);
      var before := Playables(ts[..n]);
      assert before + [] == before && WithoutUri(before, uri) + [] == WithoutUri(before, uri);
    }
  }

  lemma WithoutLast(ts: seq<Track>, t: Track, uri: string)
    ensures WithoutUri(ts + [t], uri) == WithoutUri(ts, uri) + (if t.uri == uri then [] else [t])
  {
    assert (ts + [t])[..|ts|] == ts;
  }

  /** The rest of the context without the initial track, then the autoplay context. */
  function Remaining(q: Queue, uri: string, i: nat): seq<Track> {
    WithoutUri(Playables(From(TracksOf(q, DefaultContext), i)), uri) +
    (if q.autoplay.Some? then Playables(From(q.autoplay.value.tracks, q.autoplay.value.index)) else [])
  }

  lemma MaskedReference(q: Queue, uri: string, i: nat, n: nat)
    requires q.context.Some? && !q.repeatContext
    ensures Reference(Masked(q, uri), DefaultContext, i, n) == Remaining(q, uri, i)
  {
    hide Playables, WithoutUri;
    var ts := TracksOf(q, DefaultContext);
    assert From(MaskAll(ts, uri), i) == MaskAll(From(ts, i), uri);
    MaskedPlayables(From(ts, i), uri);
  }

  lemma MaskedIsReady(q: Queue, uri: string)
    requires StartedFrom(q, uri) && NoDelimiters(q.next) && forall i :: 0 <= i < |q.next| ==> q.next[i].Playable()
    ensures PlainContexts(Masked(q, uri)) && SpacedAt(Masked(q, uri), Index(Masked(q, uri)))
  {
    hide Playables, DelimiterNext, NothingToRepeat;
    assert Spaced(q.next);
  }

  /**
   Main result: after a shuffle from a track and a reset to position `i`, the first `n` calls of
   `next_track` play the leading queued tracks, then the available tracks after `i` in order, the
   initial track left out, then the autoplay tracks.
   */
  lemma ShufflePlaysOthers(q: Queue, uri: string, i: nat, n: nat)
    requires StartedFrom(q, uri) && q.active == DefaultContext
    requires NoDelimiters(QueuedFirst(q)) && ResetTo(q, i).Ok?
    ensures Plays(ResetTo(q, i).value, n).0 == Take(QueuedFirst(q) + Remaining(q, uri, i + 1), n)
  {
    hide Playables, Reference, FillUp, Ready, Take, SpacedAt, MaskContext, Remaining;
    var cleared := Cleared(q, i);
    ClearedIsStarted(q, uri, i);
    MaskFillUp(cleared, uri);
    MaskPlays(ResetTo(q, i).value, uri, n);
    var masked := Masked(cleared, uri);
    MaskedIsReady(cleared, uri);
    Refill(masked, n);
    PlaysUpcoming(FillUp(masked).value, n);
    AllPlayable(cleared.next);
    MaskedReference(cleared, uri, i + 1, n);
  }

  lemma ClearedIsStarted(q: Queue, uri: string, i: nat)
    requires StartedFrom(q, uri) && q.active == DefaultContext && NoDelimiters(QueuedFirst(q)) && Placed(q, i).Ok?
    ensures var r := Cleared(q, i);
            && StartedFrom(r, uri) && BeforeAutoplay(r) && r.fillUp == DefaultContext && Index(r) == i + 1
            && Index(Masked(r, uri)) == i + 1
            && r.next == QueuedFirst(q) && (forall k :: 0 <= k < |r.next| ==> r.next[k].Playable())
            && forall k: nat :: Remaining(r, uri, k) == Remaining(q, uri, k)
  {
    hide Playables, WithoutUri, Before;
  }

  // ---- With repeat it depends on the refills

  /** A refill that starts at the top of the context leaves the initial track out, in whatever pass. */
  lemma LeftOutAgain(q: Queue, a: Track, b: Track)
    requires a.provider == FromContext && b.provider == FromContext && a.uri != b.uri
    requires q.fillUp == DefaultContext && q.active == DefaultContext && q.repeatContext
    requires q.context == Some(StateContext([a, b], 0, 0, Some(a.uri))) && |q.next| == MAX_NEXT - 1
    ensures FillUp(q).Ok? && FillUp(q).value.next == q.next + [b]
  {
    hide Fill;
    FillAppends(q, 0, 0);
    assert Supply(q, DefaultContext, 1, 0, 1) == [b] + Supply(q, DefaultContext, 2, 0, 0);
  }

  /** One that starts before the end of a pass brings it back in the next. */
  lemma BroughtBack(q: Queue, a: Track, b: Track)
    requires a.provider == FromContext && b.provider == FromContext && a.uri != b.uri
    requires q.fillUp == DefaultContext && q.active == DefaultContext && q.repeatContext
    requires q.context == Some(StateContext([a, b], 2, 0, Some(a.uri))) && |q.next| == MAX_NEXT - 2
    ensures FillUp(q).Ok? && FillUp(q).value.next == q.next + [NewDelimiter(0), a]
  {
    hide Fill;
    FillAppends(q, 2, 0);
    assert Supply(q, DefaultContext, 0, 1, 1) == [a] + Supply(q, DefaultContext, 1, 1, 0);
    assert Supply(q, DefaultContext, 2, 0, 2) == [NewDelimiter(0)] + Supply(q, DefaultContext, 0, 1, 1);
    assert [NewDelimiter(0)] + [a] == [NewDelimiter(0), a];
  }
}
