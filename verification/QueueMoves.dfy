/**
 What each queue operation does to the tracks, in the terms of a listener
 (connect/src/state/tracks.rs, state.rs:396-434): which track plays, what the history shows, where
 an added track lands, and which ones go.
 */
module QueueMoves {
  import opened Prelude
  import opened PlayQueue
  import opened QueueOrder
  import opened QueueSupply

  // ---- Lists with some entries removed

  predicate Increasing(ks: seq<nat>) { forall a, b :: 0 <= a < b < |ks| ==> ks[a] < ks[b] }

  /** `r` is what is left of `ts` at the positions `ks`, in order, and exactly the kept entries are. */
  ghost predicate KeptAt(ts: seq<Track>, r: seq<Track>, keep: Track -> bool, ks: seq<nat>) {
    && |ks| == |r| && Increasing(ks)
    && (forall j :: 0 <= j < |ks| ==> ks[j] < |ts| && keep(ts[ks[j]]) && r[j] == ts[ks[j]])
    && (forall i :: 0 <= i < |ts| && keep(ts[i]) ==> i in ks)
  }

  lemma KeptSnoc(ts: seq<Track>, r: seq<Track>, keep: Track -> bool, ks: seq<nat>, t: Track) returns (ls: seq<nat>)
    requires KeptAt(ts, r, keep, ks)
    ensures KeptAt(ts + [t], r + (if keep(t) then [t] else []), keep, ls)
  {
    ls := if keep(t) then ks + [|ts|] else ks;
    forall i | 0 <= i < |ts + [t]| && keep((ts + [t])[i])
      ensures i in ls
    {
      if i < |ts| {
        assert i in ks;
      } else {
        assert ls[|ks|] == i;
      }
    }
  }

  /** `clear_queue` keeps exactly the tracks that are not queued, in order. */
  lemma {:induction false} NotQueuedKeeps(ts: seq<Track>) returns (ks: seq<nat>)
    ensures KeptAt(ts, NotQueued(ts), (t: Track) => t.provider != FromQueue, ks)
  {
    if ts == [] {
      ks := [];
    } else {
      var n := |ts| - 1;
      ks := NotQueuedKeeps(ts[..n]);
      ks := KeptSnoc(ts[..n], NotQueued(ts[..n]), (t: Track) => t.provider != FromQueue, ks, ts[n]);
      assert ts[..n] + [ts[n]] == ts;
    }
  }

  /** Marking a track removes exactly its entries, and keeps the others in order. */
  lemma {:induction false} WithoutUriKeeps(ts: seq<Track>, uri: string) returns (ks: seq<nat>)
    ensures KeptAt(ts, WithoutUri(ts, uri), (t: Track) => t.uri != uri, ks)
  {
    if ts == [] {
      ks := [];
    } else {
      var n := |ts| - 1;
      ks := WithoutUriKeeps(ts[..n], uri);
      ks := KeptSnoc(ts[..n], WithoutUri(ts[..n], uri), (t: Track) => t.uri != uri, ks, ts[n]);
      assert ts[..n] + [ts[n]] == ts;
    }
  }

  /** The reference order leaves out exactly delimiters and unavailable tracks. */
  lemma {:induction false} PlayablesKeeps(ts: seq<Track>) returns (ks: seq<nat>)
    ensures KeptAt(ts, Playables(ts), (t: Track) => !(DELIMITER <= t.uid) && t.provider != Unavailable, ks)
  {
    var keep := (t: Track) => !(DELIMITER <= t.uid) && t.provider != Unavailable;
    if ts == [] {
      ks := [];
    } else {
      var n := |ts| - 1;
      ks := PlayablesKeeps(ts[..n]);
      ks := KeptSnoc(ts[..n], Playables(ts[..n]), keep, ks, ts[n]);
      assert ts[..n] + [ts[n]] == ts;
    }
  }

  // ---- Filling touches only the buffer

  /** Everything a listener sees besides the buffer. */
  predicate SameView(q: Queue, r: Queue) {
    && r.track == q.track && r.prev == q.prev && r.index == q.index && r.repeatTrack == q.repeatTrack
    && r.repeatContext == q.repeatContext && r.active == q.active
    && r.queueCount == q.queueCount && r.unavailable == q.unavailable
  }

  lemma {:induction false} FillOnlyBuffers(q: Queue, i: nat, iteration: nat)
    requires q.GetContext(q.fillUp).Some?
    ensures SameView(q, Fill(q, i, iteration)) && q.next <= Fill(q, i, iteration).next
    decreases Room(q.next), Left(q, i)
  {
    hide IsSkipTrack, NewDelimiter;
    var ts := TracksOf(q, q.fillUp);
    if |q.next| < MAX_NEXT {
      if i < |ts| {
        if PassedOver(q, ts[i], iteration) {
          FillOnlyBuffers(q, i + 1, iteration);
        } else {
          FillOnlyBuffers(q.Push(ts[i]), i + 1, iteration);
        }
      } else if q.repeatContext {
        FillOnlyBuffers(q.Push(NewDelimiter(iteration)), 0, iteration + 1);
      } else if q.fillUp == DefaultContext && q.autoplay.Some? {
        FillOnlyBuffers(HandOver(q, i, NewDelimiter(iteration)), q.autoplay.value.index, iteration);
      }
    }
  }

  lemma FillUpOnlyBuffers(q: Queue)
    ensures FillUp(q).Ok? <==> q.GetContext(q.fillUp).Some?
    ensures FillUp(q).Ok? ==> SameView(q, FillUp(q).value) && q.next <= FillUp(q).value.next
  {
    if q.GetContext(q.fillUp).Some? {
      FillOnlyBuffers(q, q.GetContext(q.fillUp).value.index, q.GetContext(q.fillUp).value.page);
    }
  }

  // ---- Reset

  /** The at most ten tracks before position `i`, as the history shows them. */
  ghost predicate HistoryBefore(prev: seq<Track>, tracks: seq<Track>, i: nat) {
    && i <= |tracks| && |prev| == (if i < 10 then i else 10)
    && forall k :: 0 <= k < |prev| ==> prev[k] == tracks[i - |prev| + k]
  }

  /**
   Main result: after a reset to position `i`, the track at `i` is the current one (or the one that
   stays), position `i` is reported, the history is the ten tracks before it, and the buffer begins
   with the queued tracks.
   */
  lemma ResetShows(q: Queue, i: nat)
    requires ResetTo(q, i).Ok?
    ensures var r, tracks := ResetTo(q, i).value, TracksOf(q, q.active);
            && (if StaysOn(q) then r.track == q.track else i < |tracks| && r.track == Some(tracks[i]))
            && r.index == Some(i) && HistoryBefore(r.prev, tracks, i)
            && QueuedFirst(q) <= r.next && r.active == q.active
  {
    hide Fill, FillUp, QueuedPrefix, IsSkipTrack;
    StaysOnKeeps(q);
    var cleared := Cleared(q, i);
    FillUpOnlyBuffers(cleared);
    assert cleared.next == QueuedFirst(q);
  }

  lemma StaysOnKeeps(q: Queue)
    ensures StaysOn(q) <==> KeepsTrack(q)
  {
  }

  /** What a failed reset leaves: the position is reported, and moved if there is a context; nothing else. */
  lemma FailedResetShows(q: Queue, i: nat)
    requires !ResetTo(q, i).Ok?
    ensures var r := Abandoned(q, i);
            && r.index == Some(i) && r.track == q.track && r.next == q.next && r.active == q.active
            && r.prev == (if ResetTo(q, i).Underflow? then [] else q.prev)
            && (q.GetContext(q.active).Some? ==> r.GetContext(q.active).value.index == i + 1 && r.fillUp == q.active)
            && (q.GetContext(q.active).None? ==> r == q.(index := Some(i)))
  {
    hide Fill, QueuedPrefix, IsSkipTrack, Before;
    ResetUnderflows(q, i);
  }

  // ---- Next

  /** The new history: the old track, if it came from a context, then each delimiter that was passed. */
  ghost predicate HistoryGrows(prev: seq<Track>, more: seq<Track>, r: seq<Track>) {
    && |r| == (if |prev| + |more| < 10 then |prev| + |more| else 10)
    && forall k :: 0 <= k < |r| ==> r[k] == (prev + more)[|prev| + |more| - |r| + k]
  }

  lemma PushGrows(prev: seq<Track>, t: Track)
    requires |prev| <= 10
    ensures HistoryGrows(prev, [t], PushPrev(prev, t))
  {
  }

  lemma GrowsTwice(prev: seq<Track>, a: seq<Track>, mid: seq<Track>, b: seq<Track>, r: seq<Track>)
    requires HistoryGrows(prev, a, mid) && HistoryGrows(mid, b, r) && |prev| <= 10
    ensures HistoryGrows(prev, a + b, r)
  {
    forall k | 0 <= k < |r|
      ensures r[k] == (prev + (a + b))[|prev| + |a + b| - |r| + k]
    {
      var j := |mid| + |b| - |r| + k;
      assert r[k] == (mid + b)[j];
      if j < |mid| { assert mid[j] == (prev + a)[|prev| + |a| - |mid| + j]; }
    }
  }

  /** The delimiters among the first `k` entries, in order. */
  function Delimiters(ts: seq<Track>): seq<Track> {
    if ts == [] then []
    else (if ts[0].IsDelimiter() then [ts[0]] else []) + Delimiters(ts[1..])
  }

  /** Position `k` is the first entry that can be played. */
  ghost predicate FirstPlayable(ts: seq<Track>, k: nat) {
    k < |ts| && ts[k].Playable() && forall j :: 0 <= j < k ==> !ts[j].Playable()
  }

  lemma {:induction false} AdvanceSkips(q: Queue, k: nat)
    requires FirstPlayable(q.next, k) && |q.prev| <= 10
    ensures var (t, r) := Advance(q);
            && t == Some(q.next[k]) && r == q.(next := q.next[k + 1..], prev := r.prev)
            && HistoryGrows(q.prev, Delimiters(q.next[..k]), r.prev)
    decreases |q.next|
  {
    SkipShape(q.next, k);
    hide HistoryGrows, Delimiters, FirstPlayable, PushPrev;
    if k == 0 {
      GrowsByNothing(q.prev);
    } else {
      var rest := q.(next := q.next[1..]);
      if q.next[0].IsDelimiter() {
        var pushed := rest.(prev := PushPrev(q.prev, q.next[0]));
        PushGrows(q.prev, q.next[0]);
        AdvanceSkips(pushed, k - 1);
        GrowsTwice(q.prev, [q.next[0]], pushed.prev, Delimiters(rest.next[..k - 1]), Advance(pushed).1.prev);
      } else {
        AdvanceSkips(rest, k - 1);
      }
    }
  }

  lemma GrowsByNothing(prev: seq<Track>)
    requires |prev| <= 10
    ensures HistoryGrows(prev, [], prev)
  {
    assert prev + [] == prev;
  }

  /** The entries up to the first playable one, seen from the front. */
  lemma SkipShape(ts: seq<Track>, k: nat)
    requires FirstPlayable(ts, k)
    ensures if k == 0 then ts[0].Playable() && Delimiters(ts[..0]) == []
            else
              && FirstPlayable(ts[1..], k - 1) && ts[1..][k - 1] == ts[k] && ts[1..][k..] == ts[k + 1..]
              && !ts[0].Playable()
              && Delimiters(ts[..k]) ==
                   (if ts[0].IsDelimiter() then [ts[0]] else []) + Delimiters(ts[1..][..k - 1])
              && (!ts[0].IsDelimiter() ==> Delimiters(ts[..k]) == Delimiters(ts[1..][..k - 1]))
  {
    if k > 0 {
      assert ts[1..][..k - 1] == ts[..k][1..];
      assert ts[1..][k - 1] == ts[k];
    }
  }

  /** What `next_track` puts into the history. */
  function Retired(q: Queue): seq<Track> {
    if q.track.Some? && (q.track.value.provider == FromContext || q.track.value.provider == FromAutoplay)
    then [q.track.value] else []
  }

  /**
   Main result: `next_track` plays the first playable entry of the buffer and drops what is before it;
   the history gets the old track and the delimiters passed; the reported position is the new track's,
   if it comes from the context; autoplay becomes active with its first track.
   */
  lemma NextTrackShows(q: Queue, k: nat)
    requires FirstPlayable(q.next, k) && |q.prev| <= 10 && q.GetContext(q.fillUp).Some?
    ensures var (reply, r) := NextTrack(q); var t := q.next[k];
            && reply == Ok(Some(t)) && r.track == Some(t) && !r.repeatTrack
            && q.next[k + 1..] <= r.next
            && HistoryGrows(q.prev, Retired(q) + Delimiters(q.next[..k]), r.prev)
            && r.index == (if t.provider == FromContext then t.contextIndex else None)
            && r.active == (if t.provider == FromAutoplay then AutoplayContext else q.active)
  {
    hide FillUp, Advance, Delimiters, HistoryGrows;
    var start := Retire(q.(repeatTrack := false));
    RetireGrows(q);
    AdvanceSkips(start, k);
    var advanced := Advance(start).1;
    GrowsTwice(q.prev, Retired(q), start.prev, Delimiters(q.next[..k]), advanced.prev);
    FillUpOnlyBuffers(advanced);
  }

  lemma RetireGrows(q: Queue)
    requires |q.prev| <= 10
    ensures var r := Retire(q.(repeatTrack := false));
            && HistoryGrows(q.prev, Retired(q), r.prev) && |r.prev| <= 10 && r.next == q.next
  {
    if Retired(q) == [] {
      assert q.prev + [] == q.prev;
    } else {
      PushGrows(q.prev, q.track.value);
    }
  }

  /** With nothing playable buffered, `next_track` reports none and empties the buffer. */
  lemma {:induction false} NothingNext(q: Queue)
    requires forall j :: 0 <= j < |q.next| ==> !q.next[j].Playable()
    ensures NextTrack(q).0 == Ok(None) && NextTrack(q).1.next == [] && NextTrack(q).1.track == None
  {
    hide Advance;
    NothingToAdvance(Retire(q.(repeatTrack := false)));
  }

  lemma {:induction false} NothingToAdvance(q: Queue)
    requires forall j :: 0 <= j < |q.next| ==> !q.next[j].Playable()
    ensures Advance(q).0 == None && Advance(q).1.next == [] && Advance(q).1.track == q.track
    decreases |q.next|
  {
    if q.next != [] {
      var rest := q.(next := q.next[1..]);
      if q.next[0].IsDelimiter() {
        NothingToAdvance(rest.(prev := PushPrev(q.prev, q.next[0])));
      } else {
        NothingToAdvance(rest);
      }
    }
  }

  // ---- Previous

  /** One delimiter at the end of the history moves to the buffer as well. */
  function Passed(prev: seq<Track>): seq<Track> {
    if prev != [] && prev[|prev| - 1].IsDelimiter() then [prev[|prev| - 1]] else []
  }

  /**
   Main result: `prev_track` plays the last track of the history behind at most one delimiter; the
   delimiter and the old track, if it came from a context, come first in the buffer again.
   */
  lemma PrevTrackShows(q: Queue)
    requires |q.next| <= 80 && |q.prev| > |Passed(q.prev)| && q.GetContext(q.fillUp).Some?
    ensures var (reply, r) := PrevTrack(q);
            var n, front := |q.prev| - |Passed(q.prev)| - 1, Passed(q.prev) + Retired(q) + q.next;
            && reply == Ok(Some(q.prev[n])) && r.track == Some(q.prev[n]) && r.prev == q.prev[..n]
            && (if |front| <= 80 then front <= r.next else r.next == front[..80])
            && r.index == (if q.index.Some? && q.index.value > 0 then Some(q.index.value - 1) else q.index)
            && r.active == (if q.prev[n].provider == FromContext then DefaultContext else q.active)
  {
    StepBackShows(q);
    hide FillUp, Fill, StepBack, TakeBack;
    TakeBackShows(StepBack(q));
    var n := |q.prev| - |Passed(q.prev)| - 1;
    assert q.prev[..n + 1][..n] == q.prev[..n];
  }

  lemma TakeBackShows(back: Queue)
    requires back.prev != [] && back.GetContext(back.fillUp).Some?
    ensures var (reply, r), n := TakeBack(back), |back.prev| - 1;
            && reply == Ok(Some(back.prev[n])) && r.track == Some(back.prev[n]) && r.prev == back.prev[..n]
            && back.next <= r.next && (|back.next| >= 80 ==> r.next == back.next)
            && r.index == (if back.index.Some? && back.index.value > 0 then Some(back.index.value - 1) else back.index)
            && r.active == (if back.prev[n].provider == FromContext then DefaultContext else back.active)
  {
    hide FillUp, Fill;
    var n := |back.prev| - 1;
    var rest := back.(prev := back.prev[..n]);
    var moved :=
      if rest.active == AutoplayContext && back.prev[n].provider == FromContext then rest.(active := DefaultContext)
      else rest;
    FillUpOnlyBuffers(moved);
    FullStays(moved);
  }

  /** A full buffer is not filled any further. */
  lemma FullStays(q: Queue)
    ensures |q.next| >= 80 && FillUp(q).Ok? ==> FillUp(q).value.next == q.next
  {
  }

  lemma StepBackShows(q: Queue)
    requires |q.next| <= 80
    ensures var r, front := StepBack(q), Passed(q.prev) + Retired(q) + q.next;
            && r == q.(track := None, next := r.next, prev := q.prev[..|q.prev| - |Passed(q.prev)|])
            && r.next == (if |front| <= 80 then front else front[..80])
  {
    hide StepBack, Truncate, Passed, Retired;
    StepBackIs(q);
    FrontIs(Passed(q.prev), Retired(q), q.next);
  }

  lemma StepBackIs(q: Queue)
    ensures |Passed(q.prev)| <= 1 && |Passed(q.prev)| <= |q.prev| && |Retired(q)| <= 1
    ensures StepBack(q) == q.(track := None, prev := q.prev[..|q.prev| - |Passed(q.prev)|],
                              next := Front(Passed(q.prev), Retired(q), q.next))
  {
    hide Truncate;
    if Passed(q.prev) == [] { assert q.prev[..|q.prev|] == q.prev; }
  }

  /** The buffer when a delimiter and the old track are put in front of it, one at a time. */
  function Front(d: seq<Track>, last: seq<Track>, next: seq<Track>): seq<Track> {
    var kept := if last == [] then next else last + next;
    var room := if |kept| >= 80 then kept[..|kept| - 1] else kept;
    Truncate(if d == [] then kept else d + room)
  }

  /** Making room before a delimiter is put in front leaves what is cut off anyway. */
  lemma FrontIs(d: seq<Track>, last: seq<Track>, next: seq<Track>)
    requires |d| <= 1 && |last| <= 1 && |next| <= 80
    ensures var front := d + last + next; Front(d, last, next) == if |front| <= 80 then front else front[..80]
  {
    var kept := if last == [] then next else last + next;
    assert d + last + next == d + kept;
    if d == [] {
      assert d + kept == kept;
    } else if |kept| >= 80 {
      var room := kept[..|kept| - 1];
      assert (d + room)[..80] == (d + kept)[..80];
    }
  }

  /** Without a history, `prev_track` reports none. */
  lemma NothingBefore(q: Queue)
    requires |q.prev| == |Passed(q.prev)|
    ensures PrevTrack(q).0 == Ok(None) && PrevTrack(q).1.track == None
  {
    hide FillUp;
  }

  /** Going on and back again: the track that was playing plays again, and the other one comes next. */
  lemma PrevUndoesNext(q: Queue)
    requires q.next != [] && q.next[0].Playable() && |q.next| <= 80 && |q.prev| < 10 && q.GetContext(q.fillUp).Some?
    requires Retired(q) != [] && !q.track.value.IsDelimiter()
    requires q.next[0].provider == FromContext || q.next[0].provider == FromAutoplay
    ensures var there := NextTrack(q).1; var (reply, back) := PrevTrack(there);
            && reply == Ok(q.track) && back.track == q.track && back.prev == q.prev && q.next <= back.next
  {
    Forward(q);
    StillThere(q);
    hide NextTrack, PrevTrack;
    var there := NextTrack(q).1;
    assert Retired(there) == [q.next[0]] && Passed(there.prev) == [];
    PrevTrackShows(there);
    assert there.prev[..|q.prev|] == q.prev;
    FrontAgain(q.next, there.next, PrevTrack(there).1.next);
  }

  /** One step on, with the next track at the front of the buffer. */
  lemma Forward(q: Queue)
    requires q.next != [] && q.next[0].Playable() && |q.prev| < 10 && q.GetContext(q.fillUp).Some?
    requires Retired(q) != []
    ensures var there := NextTrack(q).1;
            there.track == Some(q.next[0]) && there.prev == q.prev + [q.track.value] && q.next[1..] <= there.next
  {
    hide NextTrack;
    NextTrackShows(q, 0);
    assert q.next[..0] == [] && Delimiters([]) == [] && Retired(q) + [] == [q.track.value];
  }

  lemma FrontAgain(next: seq<Track>, there: seq<Track>, back: seq<Track>)
    requires next != [] && |next| <= 80 && next[1..] <= there
    requires var front := [] + [next[0]] + there; if |front| <= 80 then front <= back else back == front[..80]
    ensures next <= back
  {
    assert next == [next[0]] + next[1..];
    assert [] + [next[0]] + there == [next[0]] + there;
  }

  lemma StillThere(q: Queue)
    requires q.next != [] && q.next[0].Playable() && q.GetContext(q.fillUp).Some?
    requires |q.next| <= 80
    ensures NextTrack(q).1.GetContext(NextTrack(q).1.fillUp).Some? && |NextTrack(q).1.next| <= 80
  {
    hide Fill;
  }

  // ---- Adding

  /**
   Main result: an added track lands behind the queued ones at the front and before everything else,
   marked as queued; the buffer is cut at 80.
   */
  lemma AddToQueueShows(q: Queue, t: Track)
    ensures var r, n := AddToQueue(q, t), QueuedPrefix(q.next);
            && |r.next| == (if |q.next| < 80 then |q.next| + 1 else 80)
            && (forall k :: 0 <= k < n && k < 80 ==> r.next[k] == q.next[k])
            && (n < 80 ==>
                  && r.next[n].uri == t.uri && r.next[n].provider == FromQueue && r.next[n].queued
                  && r.next[n].uid == "q" + Decimal(q.queueCount)
                  && forall k :: n < k < |r.next| ==> r.next[k] == q.next[k - 1])
            && r == q.(next := r.next, queueCount := q.queueCount + 1)
  {
    hide QueuedPrefix;
  }

  /** Every added track has a uid of its own. */
  lemma {:induction false} DecimalIsInjective(m: nat, n: nat)
    ensures Decimal(m) == Decimal(n) ==> m == n
  {
    DecimalReads(m);
    DecimalReads(n);
  }

  function ReadDecimal(s: string): int {
    if s == "" then 0 else 10 * ReadDecimal(s[..|s| - 1]) + (s[|s| - 1] as int - '0' as int)
  }

  lemma {:induction false} DecimalReads(n: nat)
    ensures ReadDecimal(Decimal(n)) == n
  {
    DigitReads(n % 10);
    if n < 10 {
      assert Decimal(n)[..0] == "";
    } else {
      DecimalReads(n / 10);
      assert Decimal(n)[..|Decimal(n)| - 1] == Decimal(n / 10);
    }
  }

  lemma DigitReads(d: nat)
    requires d < 10
    ensures "0123456789"[d] as int - '0' as int == d
  {
  }

  // ---- Clearing and marking

  /** `clear_queue`: the buffer starts with what was not queued, and nothing else changes but the refill. */
  lemma ClearQueueShows(q: Queue)
    requires ClearQueue(q).Ok?
    ensures NotQueued(q.next) <= ClearQueue(q).value.next && SameView(q, ClearQueue(q).value)
  {
    FillUpOnlyBuffers(q.(next := NotQueued(q.next)));
  }

  /** `clear_next_tracks`: only the queued tracks at the front stay. */
  lemma ClearNextShows(q: Queue)
    ensures var r := ClearNext(q);
            && r == q.(next := r.next) && r.next <= q.next
            && (forall k :: 0 <= k < |r.next| ==> r.next[k].provider == FromQueue)
            && (|r.next| < |q.next| ==> q.next[|r.next|].provider != FromQueue)
  {
  }

  /** `mark_unavailable`: the uri is recorded, and besides the two lists and the refill nothing changes. */
  lemma MarkShows(q: Queue, uri: string)
    requires MarkUnavailable(q, uri).Ok?
    ensures var r := MarkUnavailable(q, uri).value;
            && r.prev == WithoutUri(q.prev, uri) && WithoutUri(q.next, uri) <= r.next
            && r.unavailable == q.unavailable + [uri] && r.track == q.track && r.index == q.index
  {
    FillUpOnlyBuffers(Marked(q, uri));
  }
}
