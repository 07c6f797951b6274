/**
 What the fill-up appends, for every queue (connect/src/state/tracks.rs:295-364), and with it when
 a track that was marked unavailable stays away (tracks.rs:395-423): marking removes it from the
 buffer but not from the context that the buffer is refilled from.
 */
module QueueSupply {
  import opened Prelude
  import opened PlayQueue
  import opened QueueOrder

  /** The track at this position of the context is passed over in this iteration. */
  predicate PassedOver(q: Queue, t: Track, iteration: nat) {
    t.provider == Unavailable || IsSkipTrack(q, t.uri, Some(iteration))
  }

  /**
   The next `n` entries the contexts have to offer from position `i` on: available tracks that are
   not skipped, a delimiter before each repetition or before autoplay, and fewer than `n` at the end.
   */
  function Supply(q: Queue, kind: Kind, i: nat, iteration: nat, n: nat): (r: seq<Track>)
    ensures |r| <= n
    decreases n, if i < |TracksOf(q, kind)| then |TracksOf(q, kind)| - i else 0
  {
    var ts := TracksOf(q, kind);
    if n == 0 then []
    else if i < |ts| then
      if PassedOver(q, ts[i], iteration) then Supply(q, kind, i + 1, iteration, n)
      else [ts[i]] + Supply(q, kind, i + 1, iteration, n - 1)
    else if q.repeatContext then [NewDelimiter(iteration)] + Supply(q, kind, 0, iteration + 1, n - 1)
    else if kind == DefaultContext && q.autoplay.Some? then
      [NewDelimiter(iteration)] + Supply(q, AutoplayContext, q.autoplay.value.index, iteration, n - 1)
    else []
  }

  /** Everything the supply depends on is the same. */
  predicate SameSupply(q: Queue, r: Queue, kind: Kind) {
    && r.repeatContext == q.repeatContext && r.active == q.active
    && (r.context.Some? <==> q.context.Some?) && (r.autoplay.Some? <==> q.autoplay.Some?)
    && (q.context.Some? ==> r.context.value == q.context.value.(index := r.context.value.index))
    && (q.autoplay.Some? ==> r.autoplay.value == q.autoplay.value.(index := r.autoplay.value.index))
    && (kind == DefaultContext ==> r.autoplay == q.autoplay)
  }

  lemma {:induction false} SupplyIsSame(q: Queue, r: Queue, kind: Kind, i: nat, iteration: nat, n: nat)
    requires SameSupply(q, r, kind)
    ensures Supply(r, kind, i, iteration, n) == Supply(q, kind, i, iteration, n)
    decreases n, if i < |TracksOf(q, kind)| then |TracksOf(q, kind)| - i else 0
  {
    var ts := TracksOf(q, kind);
    assert TracksOf(r, kind) == ts;
    if n > 0 {
      if i < |ts| {
        assert PassedOver(r, ts[i], iteration) == PassedOver(q, ts[i], iteration);
        SupplyIsSame(q, r, kind, i + 1, iteration, if PassedOver(q, ts[i], iteration) then n else n - 1);
      } else if q.repeatContext {
        SupplyIsSame(q, r, kind, 0, iteration + 1, n - 1);
      } else if kind == DefaultContext && q.autoplay.Some? {
        SupplyIsSame(q, r, AutoplayContext, q.autoplay.value.index, iteration, n - 1);
      }
    }
  }

  function Room(ts: seq<Track>): nat { if |ts| < MAX_NEXT then MAX_NEXT - |ts| else 0 }

  lemma StaysSame(q: Queue, t: Track, i: nat)
    ensures SameSupply(q, q.Push(t), q.fillUp)
    ensures q.context.Some? ==> SameSupply(q, HandOver(q, i, t), AutoplayContext)
  {
  }

  /** Main result: for every queue, the loop appends exactly the supply that there is room for. */
  lemma {:induction false} FillAppends(q: Queue, i: nat, iteration: nat)
    requires q.GetContext(q.fillUp).Some?
    ensures Fill(q, i, iteration).next == q.next + Supply(q, q.fillUp, i, iteration, Room(q.next))
    decreases Room(q.next), Left(q, i)
  {
    hide NewDelimiter, IsSkipTrack, SameSupply;
    var ts, delimiter := TracksOf(q, q.fillUp), NewDelimiter(iteration);
    StaysSame(q, if i < |ts| then ts[i] else delimiter, i);
    if |q.next| < MAX_NEXT {
      var n := Room(q.next) - 1;
      if i < |ts| {
        if PassedOver(q, ts[i], iteration) {
          FillAppends(q, i + 1, iteration);
        } else {
          AppendsNext(q, q.Push(ts[i]), ts[i], q.fillUp, i + 1, iteration, n);
        }
      } else if q.repeatContext {
        AppendsNext(q, q.Push(delimiter), delimiter, q.fillUp, 0, iteration + 1, n);
      } else if q.fillUp == DefaultContext && q.autoplay.Some? {
        var handed := HandOver(q, i, delimiter);
        AppendsNext(q, handed, delimiter, AutoplayContext, q.autoplay.value.index, iteration, n);
      }
    }
  }

  /** One entry `t` pushed, the rest by induction. */
  lemma {:induction false} AppendsNext(q: Queue, r: Queue, t: Track, kind: Kind, i: nat, iteration: nat, n: nat)
    requires r.next == q.next + [t] && r.fillUp == kind && SameSupply(q, r, kind)
    requires |q.next| < MAX_NEXT && n == Room(q.next) - 1 && r.GetContext(kind).Some?
    ensures Fill(r, i, iteration).next == q.next + ([t] + Supply(q, kind, i, iteration, n))
    decreases Room(r.next), Left(r, i) + 1
  {
    hide Supply, Fill;
    FillAppends(r, i, iteration);
    SupplyIsSame(q, r, kind, i, iteration, n);
    assert q.next + [t] + Supply(q, kind, i, iteration, n) == q.next + ([t] + Supply(q, kind, i, iteration, n));
  }

  // ---- Marked tracks

  predicate Absent(ts: seq<Track>, uri: string) { forall i :: 0 <= i < |ts| ==> ts[i].uri != uri }

  lemma {:induction false} WithoutIsAbsent(ts: seq<Track>, uri: string)
    ensures Absent(WithoutUri(ts, uri), uri)
  {
    if ts != [] { WithoutIsAbsent(ts[..|ts| - 1], uri); }
  }

  lemma AbsentAppend(a: seq<Track>, b: seq<Track>, uri: string)
    ensures Absent(a + b, uri) <==> Absent(a, uri) && Absent(b, uri)
  {
    assert forall i :: 0 <= i < |b| ==> (a + b)[|a| + i] == b[i];
    assert forall i :: 0 <= i < |a| ==> (a + b)[i] == a[i];
  }

  /** What the refill after marking has room for. */
  function Refilled(q: Queue, uri: string): seq<Track>
    requires q.GetContext(q.fillUp).Some?
  {
    Supply(q, q.fillUp, Index(q), q.GetContext(q.fillUp).value.page, Room(WithoutUri(q.next, uri)))
  }

  /**
   Main result: the marked track is gone from the history, and it is gone from the buffer if and only
   if none of the entries that the contexts supply for the refill carries its uri.
   */
  lemma MarkedStaysAway(q: Queue, uri: string)
    requires q.GetContext(q.fillUp).Some?
    ensures MarkUnavailable(q, uri).Ok?
    ensures Absent(MarkUnavailable(q, uri).value.next, uri) <==> Absent(Refilled(q, uri), uri)
    ensures MarkUnavailable(q, uri).value.next == WithoutUri(q.next, uri) + Refilled(q, uri)
    ensures Absent(MarkUnavailable(q, uri).value.prev, uri)
  {
    hide Fill, Supply, WithoutUri, Absent;
    var m := Marked(q, uri);
    var ctx := q.GetContext(q.fillUp).value;
    FillAppends(m, ctx.index, ctx.page);
    SupplyIsSame(q, m, q.fillUp, ctx.index, ctx.page, Room(m.next));
    WithoutIsAbsent(q.next, uri);
    WithoutIsAbsent(q.prev, uri);
    AbsentAppend(m.next, Refilled(q, uri), uri);
    PrevUntouched(m, ctx.index, ctx.page);
  }

  lemma {:induction false} PrevUntouched(q: Queue, i: nat, iteration: nat)
    requires q.GetContext(q.fillUp).Some?
    ensures Fill(q, i, iteration).prev == q.prev
    decreases Room(q.next), Left(q, i)
  {
    var ts := TracksOf(q, q.fillUp);
    if |q.next| < MAX_NEXT {
      if i < |ts| {
        if PassedOver(q, ts[i], iteration) {
          PrevUntouched(q, i + 1, iteration);
        } else {
          PrevUntouched(q.Push(ts[i]), i + 1, iteration);
        }
      } else if q.repeatContext {
        PrevUntouched(q.Push(NewDelimiter(iteration)), 0, iteration + 1);
      } else if q.fillUp == DefaultContext && q.autoplay.Some? {
        PrevUntouched(HandOver(q, i, NewDelimiter(iteration)), q.autoplay.value.index, iteration);
      }
    }
  }

  /** It can come back in the same call: the only track of a context, not buffered yet. */
  lemma MarkedComesBack(q: Queue, t: Track)
    requires t.provider == FromContext
    requires q.fillUp == DefaultContext && q.active == DefaultContext && !q.repeatContext && q.autoplay.None?
    requires q.next == [] && q.context == Some(StateContext([t], 0, 0, None))
    ensures MarkUnavailable(q, t.uri).Ok? && MarkUnavailable(q, t.uri).value.next == [t]
  {
    hide Supply, Fill, FillUp;
    MarkedStaysAway(q, t.uri);
    SuppliesOne(q, t);
  }

  lemma SuppliesOne(q: Queue, t: Track)
    requires t.provider == FromContext
    requires q.fillUp == DefaultContext && q.active == DefaultContext && !q.repeatContext && q.autoplay.None?
    requires q.next == [] && q.context == Some(StateContext([t], 0, 0, None))
    ensures Refilled(q, t.uri) == [t] && WithoutUri(q.next, t.uri) == []
  {
    assert Supply(q, DefaultContext, 1, 0, MAX_NEXT - 1) == [];
  }
}
