/**
 The queue operations as methods of the Connect state (connect/src/state/tracks.rs): vectors
 changed in place by loops, each proved equal to its function in `PlayQueue`. The size limits
 hold over every sequence of operations.
 */
module ConnectQueue {
  import opened Prelude
  import opened PlayQueue
  import opened QueueMoves
  import opened QueueOrder
  import opened QueueSupply

  class ConnectState {
    var track: Option<Track>
    var next: seq<Track>
    var prev: seq<Track>
    var index: Option<nat>
    var repeatTrack: bool
    var repeatContext: bool
    var active: Kind
    var fillUp: Kind
    var context: Option<StateContext>
    var autoplay: Option<StateContext>
    var queueCount: nat
    var unavailable: seq<string>

    function View(): Queue
      reads this
    {
      Queue(track, next, prev, index, repeatTrack, repeatContext, active, fillUp, context, autoplay,
            queueCount, unavailable)
    }

    constructor (q: Queue)
      ensures View() == q
    {
      track, next, prev, index := q.track, q.next, q.prev, q.index;
      repeatTrack, repeatContext, active, fillUp := q.repeatTrack, q.repeatContext, q.active, q.fillUp;
      context, autoplay, queueCount, unavailable := q.context, q.autoplay, q.queueCount, q.unavailable;
    }

    method UpdateContextIndex(kind: Kind, i: nat)
      requires View().GetContext(kind).Some?
      modifies this`context, this`autoplay
      ensures View() == old(View()).WithIndex(kind, i)
    {
      if kind == DefaultContext {
        context := Some(context.value.(index := i));
      } else {
        autoplay := Some(autoplay.value.(index := i));
      }
    }

    method FillUpNextTracks() returns (ok: bool)
      modifies this`next, this`fillUp, this`context, this`autoplay
      ensures ok <==> FillUp(old(View())).Ok?
      ensures View() == if ok then FillUp(old(View())).value else old(View())
    {
      var ctx := View().GetContext(fillUp);
      if ctx.None? { return false; }
      var newIndex: nat, iteration: nat := ctx.value.index, ctx.value.page;
      while |next| < MAX_NEXT
        invariant View().GetContext(fillUp).Some?
        invariant Fill(View(), newIndex, iteration) == FillUp(old(View())).value
        decreases MAX_NEXT - |next|, Left(View(), newIndex)
      {
        var tracks := View().GetContext(fillUp).value.tracks;
        if newIndex < |tracks| {
          var t := tracks[newIndex];
          if t.provider == Unavailable || IsSkipTrack(View(), t.uri, Some(iteration)) {
            newIndex := newIndex + 1;
          } else {
            newIndex := newIndex + 1;
            next := next + [t];
          }
        } else if repeatContext {
          next := next + [NewDelimiter(iteration)];
          iteration := iteration + 1;
          newIndex := 0;
        } else if fillUp != AutoplayContext && autoplay.Some? {
          UpdateContextIndex(fillUp, newIndex);
          fillUp := AutoplayContext;
          newIndex := autoplay.value.index;
          next := next + [NewDelimiter(iteration)];
        } else {
          if autoplay.Some? && newIndex < |autoplay.value.tracks| {
            // Autoplay is the fill-up context here, and its own lookup has just failed.
            assert false;
          }
          break;
        }
      }
      UpdateContextIndex(fillUp, newIndex);
      ok := true;
    }

    method AddPrev(t: Track)
      modifies this`prev
      ensures prev == PushPrev(old(prev), t)
    {
      if |prev| >= MAX_PREV { prev := prev[1..]; }
      prev := prev + [t];
    }

    /** Answers with the reply of the specification and leaves its queue behind. */
    method MoveToNext() returns (r: Reply<Option<Track>>)
      modifies this
      ensures r == NextTrack(old(View())).0 && View() == NextTrack(old(View())).1
      ensures old(View()).Bounded() ==> View().Bounded()
    {
      hide Advance, FillUp;
      ApplyKeeps(View(), Next);
      RetireTrack();
      var t := TakePlayable();
      if t.None? { return Ok(None); }
      var ok := FillUpNextTracks();
      if !ok { return NoContext; }
      index := if t.value.provider == FromQueue || t.value.provider == FromAutoplay then None else t.value.contextIndex;
      if t.value.provider == FromAutoplay { active := AutoplayContext; }
      track := t;
      r := Ok(t);
    }

    method RetireTrack()
      modifies this`repeatTrack, this`track, this`prev
      ensures View() == Retire(old(View()).(repeatTrack := false))
    {
      repeatTrack := false;
      var t := track;
      track := None;
      if t.Some? && t.value.FromAnyContext() { AddPrev(t.value); }
    }

    /** Takes entries from the buffer until one can be played. */
    method TakePlayable() returns (t: Option<Track>)
      modifies this`next, this`prev
      ensures Advance(old(View())) == (t, View())
    {
      t := None;
      while t.None? && |next| > 0
        invariant t.None? ==> Advance(View()) == Advance(old(View()))
        invariant t.Some? ==> Advance(old(View())) == (t, View())
        decreases |next|
      {
        var head := next[0];
        next := next[1..];
        if head.IsDelimiter() {
          AddPrev(head);
        } else if head.provider != Unavailable {
          t := Some(head);
        }
      }
    }

    method MoveToPrev() returns (r: Reply<Option<Track>>)
      modifies this
      ensures r == PrevTrack(old(View())).0 && View() == PrevTrack(old(View())).1
      ensures old(View()).Bounded() ==> View().Bounded()
    {
      hide StepBack, TakeBack, Apply, Queue.Bounded;
      ApplyKeeps(View(), Prev);
      GoBack();
      r := TakePrevious();
    }

    /** The second half of `prev_track`: the last track of the history becomes the current one. */
    method TakePrevious() returns (r: Reply<Option<Track>>)
      modifies this
      ensures (r, View()) == TakeBack(old(View()))
    {
      hide FillUp;
      if prev == [] { return Ok(None); }
      var t := prev[|prev| - 1];
      prev := prev[..|prev| - 1];
      if active == AutoplayContext && t.provider == FromContext { active := DefaultContext; }
      var ok := FillUpNextTracks();
      if !ok { return NoContext; }
      track := Some(t);
      if index.Some? && index.value > 0 { index := Some(index.value - 1); }
      r := Ok(Some(t));
    }

    method GoBack()
      modifies this`track, this`next, this`prev
      ensures View() == StepBack(old(View()))
    {
      hide Truncate;
      var t := track;
      track := None;
      if t.Some? && t.value.FromAnyContext() { next := [t.value] + next; }
      if prev != [] && prev[|prev| - 1].IsDelimiter() {
        var delimiter := prev[|prev| - 1];
        prev := prev[..|prev| - 1];
        if |next| >= MAX_NEXT { next := next[..|next| - 1]; }
        next := [delimiter] + next;
      }
      TrimNext();
    }

    method TrimNext()
      modifies this`next
      ensures next == Truncate(old(next))
    {
      while |next| > MAX_NEXT
        invariant next <= old(next) && Truncate(next) == Truncate(old(next))
        decreases |next|
      {
        next := next[..|next| - 1];
      }
    }

    /** `iter().position(|t| !t.is_queue())`, with the length when there is none. */
    method FirstNotQueued() returns (n: nat)
      ensures n == QueuedPrefix(next)
    {
      n := 0;
      while n < |next| && next[n].provider == FromQueue
        invariant n <= |next| && QueuedPrefix(next) == n + QueuedPrefix(next[n..])
      {
        assert next[n..][1..] == next[n + 1..];
        n := n + 1;
      }
    }

    method ClearNextTracks()
      modifies this`next
      ensures View() == ClearNext(old(View()))
      ensures old(View()).Bounded() ==> View().Bounded()
    {
      ApplyKeeps(View(), DropNext);
      var n := FirstNotQueued();
      while |next| > n
        invariant n <= |next| && next <= old(next)
        decreases |next|
      {
        next := next[..|next| - 1];
      }
    }

    method RemoveQueued() returns (ok: bool)
      modifies this`next, this`fillUp, this`context, this`autoplay
      ensures ok <==> ClearQueue(old(View())).Ok?
      ensures ok ==> View() == ClearQueue(old(View())).value
      ensures !ok ==> View() == old(View()).(next := NotQueued(old(next)))
      ensures old(View()).Bounded() ==> View().Bounded()
    {
      ApplyKeeps(View(), DropQueued);
      hide Queue.Bounded, FillUp;
      KeepUnqueued();
      ok := FillUpNextTracks();
    }

    method KeepUnqueued()
      modifies this`next
      ensures next == NotQueued(old(next))
    {
      var all := next;
      next := [];
      for i := 0 to |all|
        invariant next == NotQueued(all[..i])
      {
        assert all[..i + 1][..i] == all[..i];
        if all[i].provider != FromQueue { next := next + [all[i]]; }
      }
      assert all[..|all|] == all;
    }

    method Enqueue(t: Track)
      modifies this`next, this`queueCount
      ensures View() == AddToQueue(old(View()), t)
      ensures old(View()).Bounded() ==> View().Bounded()
    {
      ApplyKeeps(View(), Add(t));
      hide Queue.Bounded, Apply, Decimal, Truncate;
      var added := t.(uid := "q" + Decimal(queueCount), provider := FromQueue, queued := true);
      queueCount := queueCount + 1;
      var n := FirstNotQueued();
      next := next[..n] + [added] + next[n..];
      TrimNext();
    }

    method MarkAsUnavailable(uri: string) returns (ok: bool)
      modifies this
      ensures ok <==> MarkUnavailable(old(View()), uri).Ok?
      ensures ok ==> View() == MarkUnavailable(old(View()), uri).value
      ensures !ok ==> View() == Marked(old(View()), uri)
      ensures old(View()).Bounded() ==> View().Bounded()
      ensures ok ==> Absent(prev, uri) && (Absent(next, uri) <==> Absent(Refilled(old(View()), uri), uri))
    {
      hide Apply, Queue.Bounded, Absent, Refilled, Fill;
      ApplyKeeps(View(), Mark(uri));
      if View().GetContext(fillUp).Some? { MarkedStaysAway(View(), uri); }
      next := RemoveUri(next, uri);
      prev := RemoveUri(prev, uri);
      unavailable := unavailable + [uri];
      ok := FillUpNextTracks();
    }

    /** Removes the first match until there is none. */
    static method RemoveUri(ts: seq<Track>, uri: string) returns (r: seq<Track>)
      ensures r == WithoutUri(ts, uri)
    {
      r := ts;
      var i := 0;
      while i < |r|
        invariant i <= |r| && WithoutUri(r, uri) == WithoutUri(ts, uri)
        invariant forall j :: 0 <= j < i ==> r[j].uri != uri
        decreases |r| - i
      {
        if r[i].uri == uri {
          RemoveOne(r, i, uri);
          r := r[..i] + r[i + 1..];
        } else {
          i := i + 1;
        }
      }
      NothingToRemove(r, uri);
    }

    method ResetPlayback(i: nat) returns (r: Reply<()>)
      modifies this
      ensures SameKind(r, ResetTo(old(View()), i))
      ensures r.Ok? ==> index == Some(i) && HistoryBefore(prev, old(TracksOf(View(), active)), i)
      ensures r.Ok? ==> if old(StaysOn(View())) then track == old(track)
                        else i < |old(TracksOf(View(), active))| && track == Some(old(TracksOf(View(), active))[i])
      ensures r.Underflow? <==> old(View()).GetContext(old(active)).Some? && old(StaysOn(View())) &&
                                i > |old(TracksOf(View(), active))|
      ensures View() == if r.Ok? then ResetTo(old(View()), i).value else Abandoned(old(View()), i)
      ensures old(View()).Bounded() ==> View().Bounded()
    {
      hide FillUp, Placed, Before, ClearNext;
      ResetUnderflows(View(), i);
      if ResetTo(View(), i).Ok? { ResetShows(View(), i); }
      ApplyKeeps(View(), Reset(i));
      ghost var q := View();
      r := Place(i);
      if r.Ok? {
        FillPrevTracks(View().GetContext(active).value.tracks, i);
        ClearNextTracks();
        FillUpAnswers(View());
        var ok := FillUpNextTracks();
        r := if ok then Ok(()) else NoContext;
      }
    }

    method MovePosition(i: nat)
      requires View().GetContext(active).Some?
      modifies this`context, this`autoplay, this`fillUp
      ensures View() == old(View()).WithIndex(active, i + 1).(fillUp := active)
    {
      UpdateContextIndex(active, i + 1);
      fillUp := active;
    }

    method Place(i: nat) returns (r: Reply<()>)
      modifies this
      ensures SameKind(r, Placed(old(View()), i))
      ensures View() == if r.Ok? then Placed(old(View()), i).value else Abandoned(old(View()), i)
      ensures r.Ok? ==> View().GetContext(active).Some? &&
                        View().GetContext(active).value.tracks == old(View()).GetContext(old(active)).value.tracks
      ensures r.Ok? ==> fillUp == active == old(active) && next == old(next)
    {
      hide IsSkipTrack, KeepsTrack;
      var keeps := KeepsTrack(View());
      index := Some(i);
      if View().GetContext(active).None? { return NoContext; }
      MovePosition(i);
      var tracks := View().GetContext(active).value.tracks;
      if !keeps {
        if i >= |tracks| { return NoSuchTrack; }
        track := Some(tracks[i]);
      }
      if i > |tracks| {
        prev := [];
        return Underflow;
      }
      r := Ok(());
    }

    /** The history after a reset: `rev().skip(len - i).take(10).rev()`. */
    method FillPrevTracks(tracks: seq<Track>, i: nat)
      requires i <= |tracks|
      modifies this`prev
      ensures prev == Before(tracks, i)
    {
      prev := [];
      var k: nat := i;
      while k > 0 && |prev| < MAX_PREV
        invariant k <= i && prev == tracks[k..i] && |prev| <= MAX_PREV
      {
        k := k - 1;
        prev := [tracks[k]] + prev;
      }
    }
  }

  /** The same outcome, whatever the value. */
  predicate SameKind<S, T>(r: Reply<S>, s: Reply<T>) {
    && (r.Ok? <==> s.Ok?) && (r.NoContext? <==> s.NoContext?)
    && (r.NoSuchTrack? <==> s.NoSuchTrack?) && (r.Underflow? <==> s.Underflow?)
  }

  lemma {:induction false} NothingToRemove(ts: seq<Track>, uri: string)
    requires forall j :: 0 <= j < |ts| ==> ts[j].uri != uri
    ensures WithoutUri(ts, uri) == ts
  {
    if ts != [] { NothingToRemove(ts[..|ts| - 1], uri); }
  }

  lemma {:induction false} WithoutUriAppend(a: seq<Track>, b: seq<Track>, uri: string)
    ensures WithoutUri(a + b, uri) == WithoutUri(a, uri) + WithoutUri(b, uri)
  {
    if b == [] {
      assert a + b == a;
    } else {
      WithoutUriAppend(a, b[..|b| - 1], uri);
      assert (a + b)[..|a + b| - 1] == a + b[..|b| - 1];
    }
  }

  lemma RemoveOne(ts: seq<Track>, i: nat, uri: string)
    requires i < |ts| && ts[i].uri == uri
    ensures WithoutUri(ts[..i] + ts[i + 1..], uri) == WithoutUri(ts, uri)
  {
    RemoveBetween(ts[..i], ts[i], ts[i + 1..]);
    hide WithoutUri;
    assert ts[..i] + [ts[i]] + ts[i + 1..] == ts;
  }

  lemma RemoveBetween(a: seq<Track>, t: Track, b: seq<Track>)
    ensures WithoutUri(a + b, t.uri) == WithoutUri(a + [t] + b, t.uri)
  {
    WithoutUriMatch(t);
    hide WithoutUri;
    WithoutUriAppend(a, b, t.uri);
    WithoutUriAppend(a + [t], b, t.uri);
    WithoutUriAppend(a, [t], t.uri);
  }

  lemma WithoutUriMatch(t: Track)
    ensures WithoutUri([t], t.uri) == []
  {
    assert [t][..0] == [];
  }

  // ---- The limits, over every sequence of operations

  datatype Operation =
    | Next | Prev | Add(track: Track) | DropQueued | DropNext | Mark(uri: string) | Reset(position: nat)
    | SetNext(tracks: seq<Track>) | SetPrev(tracks: seq<Track>)

  function Settle(q: Queue, r: Reply<Queue>): Queue { if r.Ok? then r.value else q }

  function Apply(q: Queue, op: Operation): Queue {
    match op
    case Next => NextTrack(q).1
    case Prev => PrevTrack(q).1
    case Add(t) => AddToQueue(q, t)
    case DropQueued => Settle(q.(next := NotQueued(q.next)), ClearQueue(q))
    case DropNext => ClearNext(q)
    case Mark(uri) => Settle(Marked(q, uri), MarkUnavailable(q, uri))
    case Reset(i) => Settle(Abandoned(q, i), ResetTo(q, i))
    case SetNext(ts) => q.(next := ts)
    case SetPrev(ts) => q.(prev := ts)
  }

  /** A queue set from outside respects the limits. */
  predicate WithinLimits(op: Operation) {
    && (op.SetNext? ==> |op.tracks| <= MAX_NEXT)
    && (op.SetPrev? ==> |op.tracks| <= MAX_PREV)
  }

  function ApplyAll(q: Queue, ops: seq<Operation>): Queue {
    if ops == [] then q else Apply(ApplyAll(q, ops[..|ops| - 1]), ops[|ops| - 1])
  }

  lemma FillUpAnswers(q: Queue)
    ensures FillUp(q).Ok? <==> q.GetContext(q.fillUp).Some?
  {
  }

  lemma FillUpBounded(q: Queue)
    requires q.Bounded() && FillUp(q).Ok?
    ensures FillUp(q).value.Bounded()
  {
    var ctx := q.GetContext(q.fillUp).value;
    PrevUntouched(q, ctx.index, ctx.page);
  }

  lemma AbandonedBounded(q: Queue, i: nat)
    requires q.Bounded()
    ensures Abandoned(q, i).Bounded()
  {
    hide KeepsTrack;
  }

  lemma ResetBounded(q: Queue, i: nat)
    requires q.Bounded() && ResetTo(q, i).Ok?
    ensures ResetTo(q, i).value.Bounded()
  {
    hide FillUp, KeepsTrack;
    FillUpBounded(ClearNext(Placed(q, i).value.(prev := Before(q.GetContext(q.active).value.tracks, i))));
  }

  lemma ApplyBounded(q: Queue, op: Operation)
    requires q.Bounded() && WithinLimits(op)
    ensures Apply(q, op).Bounded()
  {
    match op
    case Next => NextBounded(q);
    case Prev => PrevBounded(q);
    case Reset(i) =>
      hide Abandoned, ResetTo;
      AbandonedBounded(q, i);
      if ResetTo(q, i).Ok? { ResetBounded(q, i); }
    case _ =>
      hide FillUp;
      forall p: Queue | p.Bounded() && FillUp(p).Ok?
        ensures FillUp(p).value.Bounded()
      {
        FillUpBounded(p);
      }
  }

  lemma NextBounded(q: Queue)
    requires q.Bounded()
    ensures NextTrack(q).1.Bounded()
  {
    hide FillUp, Advance;
    var start := Retire(q.(repeatTrack := false));
    AdvanceBounded(start);
    var advanced := Advance(start).1;
    if FillUp(advanced).Ok? { FillUpBounded(advanced); }
  }

  lemma AdvanceBounded(q: Queue)
    requires q.Bounded()
    ensures Advance(q).1.Bounded()
  {
  }

  lemma PrevBounded(q: Queue)
    requires q.Bounded()
    ensures PrevTrack(q).1.Bounded()
  {
    hide FillUp, StepBack;
    StepBackBounded(q);
    TakeBackBounded(StepBack(q));
  }

  lemma TakeBackBounded(back: Queue)
    requires back.Bounded()
    ensures TakeBack(back).1.Bounded()
  {
    hide FillUp;
    forall p: Queue | p.Bounded() && FillUp(p).Ok?
      ensures FillUp(p).value.Bounded()
    {
      FillUpBounded(p);
    }
  }

  lemma StepBackBounded(q: Queue)
    requires q.Bounded()
    ensures StepBack(q).Bounded()
  {
  }

  /** What each operation leaves, and that it stays within the limits. */
  lemma ApplyKeeps(q: Queue, op: Operation)
    requires WithinLimits(op)
    ensures q.Bounded() ==> Apply(q, op).Bounded()
    ensures op.Next? ==> Apply(q, op) == NextTrack(q).1
    ensures op.Prev? ==> Apply(q, op) == PrevTrack(q).1
    ensures op.DropNext? ==> Apply(q, op) == ClearNext(q)
    ensures op.Add? ==> Apply(q, op) == AddToQueue(q, op.track)
    ensures op.Mark? ==> Apply(q, op) == Settle(Marked(q, op.uri), MarkUnavailable(q, op.uri))
    ensures op.Reset? ==> Apply(q, op) == Settle(Abandoned(q, op.position), ResetTo(q, op.position))
    ensures op.DropQueued? ==> Apply(q, op) == Settle(q.(next := NotQueued(q.next)), ClearQueue(q))
  {
    hide NextTrack, PrevTrack, AddToQueue, ClearNext, ResetTo, Abandoned, FillUp, Marked;
    if q.Bounded() { ApplyBounded(q, op); }
  }

  /** Main result: the buffer never exceeds 80 entries and the history never exceeds 10. */
  lemma {:induction false} LimitsHold(q: Queue, ops: seq<Operation>)
    requires q.Bounded() && forall i :: 0 <= i < |ops| ==> WithinLimits(ops[i])
    ensures ApplyAll(q, ops).Bounded()
  {
    hide Queue.Bounded, Apply;
    if ops != [] {
      LimitsHold(q, ops[..|ops| - 1]);
      ApplyBounded(ApplyAll(q, ops[..|ops| - 1]), ops[|ops| - 1]);
    }
  }
}
