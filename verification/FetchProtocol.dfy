/**
 The ranged download protocol (audio/src/fetch/receive.rs) as a state machine.

 `requested` and `downloaded` are shared; one `receive_data` task per range request runs
 concurrently with the fetch loop, which takes received chunks from a channel. An event is
 one atomic step of any of them, so a sequence of events is an arbitrary interleaving.
 The server honours Range, so a body never exceeds what is still owed.
 */
module FetchProtocol {
  import opened Prelude
  import opened RangeSets

  datatype Chunk = Chunk(offset: nat, data: seq<byte>) {
    function Span(): Range { Range(offset, |data|) }
  }

  /** A task in flight is the range of bytes its server response still owes. */
  datatype State = State(
    requested: set<nat>, downloaded: set<nat>,
    inFlight: seq<Range>, channel: seq<Chunk>,
    output: seq<byte>, completed: Option<seq<byte>>, running: bool)

  datatype Event =
    | Ask(ranges: seq<Range>)         // the fetch loop requests missing ranges
    | Body(task: nat, n: nat)         // a response body of `n` bytes reaches a task
    | Ends(task: nat)                 // a task ends, whatever the reason
    | Data                            // the loop handles the next received chunk
    | Close                           // the reader closes the file

  // ---- Bytes with multiplicity

  ghost function Bytes(r: Range): multiset<nat> { multiset(Positions(r)) }

  ghost function AllBytes(rs: seq<Range>): multiset<nat> {
    if rs == [] then multiset{} else AllBytes(rs[..|rs| - 1]) + Bytes(rs[|rs| - 1])
  }

  function Spans(channel: seq<Chunk>): (rs: seq<Range>)
    ensures |rs| == |channel|
    ensures forall i :: 0 <= i < |rs| ==> rs[i] == channel[i].Span()
  {
    seq(|channel|, i requires 0 <= i < |channel| => channel[i].Span())
  }

  // ---- Steps

  predicate Within(rs: seq<Range>, size: nat) {
    forall i :: 0 <= i < |rs| ==> rs[i].End() <= size
  }

  ghost predicate Enabled(s: State, e: Event, remote: seq<byte>) {
    s.running && match e
      case Ask(ranges) =>
        Canonical(ranges) && Within(ranges, |remote|) && Elements(ranges) !! s.requested + s.downloaded
      case Body(i, n) => i < |s.inFlight| && n <= s.inFlight[i].length && s.inFlight[i].End() <= |remote|
      case Ends(i) => i < |s.inFlight|
      case Data => s.channel != [] && s.channel[0].Span().End() <= |s.output|
      case Close => true
  }

  function Overwrite(output: seq<byte>, c: Chunk): (r: seq<byte>)
    requires c.Span().End() <= |output|
    ensures |r| == |output|
  {
    output[..c.offset] + c.data + output[c.Span().End()..]
  }

  /** `handle_file_data`: stores the chunk and finishes when nothing is missing. */
  ghost function Handle(s: State): State
    requires s.channel != [] && s.channel[0].Span().End() <= |s.output|
  {
    var c := s.channel[0];
    var stored := s.(channel := s.channel[1..], output := Overwrite(s.output, c),
                     downloaded := s.downloaded + Positions(c.Span()));
    if Interval(0, |s.output|) <= stored.downloaded
    then stored.(completed := Some(stored.output), running := false)
    else stored
  }

  ghost function Step(s: State, e: Event, remote: seq<byte>): State
    requires Enabled(s, e, remote)
  {
    match e
    case Ask(ranges) => s.(requested := s.requested + Elements(ranges), inFlight := s.inFlight + ranges)
    case Body(i, n) =>
      var r := s.inFlight[i];
      s.(inFlight := s.inFlight[i := Range(r.start + n, r.length - n)],
         channel := s.channel + [Chunk(r.start, remote[r.start..r.start + n])])
    case Ends(i) =>
      s.(requested := s.requested - Positions(s.inFlight[i]), inFlight := s.inFlight[..i] + s.inFlight[i + 1..])
    case Data => Handle(s)
    case Close => s.(running := false)
  }

  /** After the first response announced its length, and before anything else happened. */
  ghost predicate Starting(s: State, length: nat, remote: seq<byte>) {
    && length <= |remote| && |s.output| == |remote|
    && s == State(Interval(0, length), {}, [Range(0, length)], [], s.output, None, true)
  }

  /** Every event is possible when its turn comes. */
  ghost predicate Legal(s: State, events: seq<Event>, remote: seq<byte>)
    decreases |events|
  {
    events == [] || (Enabled(s, events[0], remote) && Legal(Step(s, events[0], remote), events[1..], remote))
  }

  ghost function Run(s: State, events: seq<Event>, remote: seq<byte>): State
    requires Legal(s, events, remote)
    decreases |events|
  {
    if events == [] then s else Run(Step(s, events[0], remote), events[1..], remote)
  }

  // ---- The invariant

  /** Every requested byte is, exactly once, downloaded, waiting in the channel or owed by a task. */
  ghost predicate Conserved(s: State) {
    multiset(s.requested) == multiset(s.downloaded) + AllBytes(Spans(s.channel)) + AllBytes(s.inFlight)
  }

  /** Chunks carry the remote file's bytes, and so does the output wherever it is downloaded. */
  ghost predicate Genuine(s: State, remote: seq<byte>) {
    && |s.output| == |remote|
    && Within(s.inFlight, |remote|)
    && (forall i :: 0 <= i < |s.channel| ==>
          s.channel[i].Span().End() <= |remote| &&
          s.channel[i].data == remote[s.channel[i].offset..s.channel[i].Span().End()])
    && (forall v :: v in s.downloaded ==> v < |remote| && s.output[v] == remote[v])
  }

  ghost predicate Inv(s: State, remote: seq<byte>) {
    && Conserved(s) && Genuine(s, remote)
    && (s.completed.Some? ==> s.completed.value == remote && s.downloaded == Interval(0, |remote|))
  }

  // ---- Multisets of bytes

  lemma {:induction false} AllBytesAppend(a: seq<Range>, b: seq<Range>)
    ensures AllBytes(a + b) == AllBytes(a) + AllBytes(b)
  {
    if b == [] {
      assert a + b == a;
    } else {
      var n := |b| - 1;
      AllBytesAppend(a, b[..n]);
      assert (a + b)[..|a + b| - 1] == a + b[..n];
      assert AllBytes(a + b) == AllBytes(a + b[..n]) + Bytes(b[n]);
      hide AllBytes, Bytes;
    }
  }

  lemma AllBytesOne(r: Range)
    ensures AllBytes([r]) == Bytes(r)
  {
    assert [r][..0] == [];
  }

  /** A list of ranges seen around its element `i`. */
  lemma AllBytesAround(rs: seq<Range>, i: nat)
    requires i < |rs|
    ensures AllBytes(rs) == AllBytes(rs[..i]) + Bytes(rs[i]) + AllBytes(rs[i + 1..])
  {
    hide AllBytes;
    assert rs == (rs[..i] + [rs[i]]) + rs[i + 1..];
    AllBytesAppend(rs[..i] + [rs[i]], rs[i + 1..]);
    AllBytesAppend(rs[..i], [rs[i]]);
    AllBytesOne(rs[i]);
  }

  lemma DisjointUnion(a: set<nat>, b: set<nat>)
    requires a !! b
    ensures multiset(a + b) == multiset(a) + multiset(b)
  {
  }

  lemma BytesSplit(start: nat, n: nat, length: nat)
    requires n <= length
    ensures Bytes(Range(start, length)) == Bytes(Range(start, n)) + Bytes(Range(start + n, length - n))
  {
    assert Positions(Range(start, length)) == Positions(Range(start, n)) + Positions(Range(start + n, length - n));
    DisjointUnion(Positions(Range(start, n)), Positions(Range(start + n, length - n)));
  }

  lemma {:induction false} CanonicalBytes(rs: seq<Range>)
    requires Canonical(rs)
    ensures AllBytes(rs) == multiset(Elements(rs))
  {
    if rs != [] {
      var n := |rs| - 1;
      CanonicalBytes(rs[..n]);
      AllBefore(rs, n, rs[n]);
      DisjointUnion(Elements(rs[..n]), Positions(rs[n]));
    }
  }

  lemma {:induction false} AllBytesCount(rs: seq<Range>)
    ensures |AllBytes(rs)| == TotalLength(rs)
  {
    if rs != [] {
      AllBytesCount(rs[..|rs| - 1]);
      IntervalSize(rs[|rs| - 1].start, rs[|rs| - 1].End());
    }
  }

  lemma SpansAppend(channel: seq<Chunk>, c: Chunk)
    ensures Spans(channel + [c]) == Spans(channel) + [c.Span()]
  {
  }

  lemma SpansFirst(channel: seq<Chunk>)
    requires channel != []
    ensures AllBytes(Spans(channel)) == Bytes(channel[0].Span()) + AllBytes(Spans(channel[1..]))
  {
    hide AllBytes;
    assert Spans(channel) == [channel[0].Span()] + Spans(channel[1..]);
    AllBytesAppend([channel[0].Span()], Spans(channel[1..]));
    AllBytesOne(channel[0].Span());
  }

  // ---- Each step keeps the invariant

  lemma StartingInv(s: State, length: nat, remote: seq<byte>)
    requires Starting(s, length, remote)
    ensures Inv(s, remote)
  {
    AllBytesOne(Range(0, length));
    assert Spans([]) == [];
  }

  lemma AskKeeps(s: State, ranges: seq<Range>, remote: seq<byte>)
    requires Inv(s, remote) && Enabled(s, Ask(ranges), remote)
    ensures Inv(Step(s, Ask(ranges), remote), remote)
  {
    hide AllBytes, Elements, Canonical;
    CanonicalBytes(ranges);
    AllBytesAppend(s.inFlight, ranges);
    DisjointUnion(s.requested, Elements(ranges));
  }

  lemma BodyConserves(s: State, i: nat, n: nat, data: seq<byte>)
    requires Conserved(s) && i < |s.inFlight| && n <= s.inFlight[i].length && |data| == n
    ensures var r := s.inFlight[i];
            Conserved(s.(inFlight := s.inFlight[i := Range(r.start + n, r.length - n)],
                         channel := s.channel + [Chunk(r.start, data)]))
  {
    hide AllBytes, Bytes;
    var r := s.inFlight[i];
    var rest := Range(r.start + n, r.length - n);
    var c := Chunk(r.start, data);
    var after := s.inFlight[i := rest];
    AllBytesAround(s.inFlight, i);
    AllBytesAround(after, i);
    assert after[..i] == s.inFlight[..i] && after[i + 1..] == s.inFlight[i + 1..];
    BytesSplit(r.start, n, r.length);
    SpansAppend(s.channel, c);
    AllBytesAppend(Spans(s.channel), [c.Span()]);
    AllBytesOne(c.Span());
  }

  lemma BodyKeeps(s: State, i: nat, n: nat, remote: seq<byte>)
    requires Inv(s, remote) && Enabled(s, Body(i, n), remote)
    ensures Inv(Step(s, Body(i, n), remote), remote)
  {
    hide Conserved;
    var r := s.inFlight[i];
    BodyConserves(s, i, n, remote[r.start..r.start + n]);
  }

  /** A byte that is still owed or on its way is requested, and not downloaded. */
  lemma PendingIsRequested(s: State, v: nat)
    requires Conserved(s) && (v in AllBytes(Spans(s.channel)) || v in AllBytes(s.inFlight))
    ensures v in s.requested && v !in s.downloaded
  {
    assert multiset(s.requested)[v] <= 1;
    assert multiset(s.requested)[v] ==
           multiset(s.downloaded)[v] + AllBytes(Spans(s.channel))[v] + AllBytes(s.inFlight)[v];
  }

  lemma OwedIsRequested(s: State, i: nat)
    requires Conserved(s) && i < |s.inFlight|
    ensures Positions(s.inFlight[i]) <= s.requested && Positions(s.inFlight[i]) !! s.downloaded
  {
    AllBytesAround(s.inFlight, i);
    forall v | v in Positions(s.inFlight[i])
      ensures v in s.requested && v !in s.downloaded
    {
      assert v in Bytes(s.inFlight[i]);
      PendingIsRequested(s, v);
    }
  }

  lemma EndsConserves(s: State, i: nat)
    requires Conserved(s) && i < |s.inFlight|
    ensures Conserved(s.(requested := s.requested - Positions(s.inFlight[i]),
                         inFlight := s.inFlight[..i] + s.inFlight[i + 1..]))
  {
    hide AllBytes;
    var p := Positions(s.inFlight[i]);
    OwedIsRequested(s, i);
    AllBytesAround(s.inFlight, i);
    AllBytesAppend(s.inFlight[..i], s.inFlight[i + 1..]);
    DisjointUnion(s.requested - p, p);
    assert (s.requested - p) + p == s.requested;
    CancelOwed(multiset(s.requested - p), multiset(p), multiset(s.downloaded) + AllBytes(Spans(s.channel)),
               AllBytes(s.inFlight[..i]), AllBytes(s.inFlight[i + 1..]));
  }

  lemma CancelOwed(left: multiset<nat>, p: multiset<nat>, other: multiset<nat>, x: multiset<nat>, y: multiset<nat>)
    requires left + p == other + (x + p + y)
    ensures left == other + (x + y)
  {
    forall v: nat
      ensures left[v] == (other + (x + y))[v]
    {
      assert (left + p)[v] == (other + (x + p + y))[v];
    }
  }

  lemma CancelDownloaded(left: multiset<nat>, d: multiset<nat>, c: multiset<nat>, f: multiset<nat>)
    requires left + d == d + c + f
    ensures left == c + f
  {
    forall v: nat
      ensures left[v] == (c + f)[v]
    {
      assert (left + d)[v] == (d + c + f)[v];
    }
  }

  lemma EndsKeeps(s: State, i: nat, remote: seq<byte>)
    requires Inv(s, remote) && Enabled(s, Ends(i), remote)
    ensures Inv(Step(s, Ends(i), remote), remote)
  {
    hide Conserved;
    EndsConserves(s, i);
  }

  lemma HeadIsNew(s: State)
    requires Conserved(s) && s.channel != []
    ensures Positions(s.channel[0].Span()) !! s.downloaded
  {
    SpansFirst(s.channel);
    forall v | v in Positions(s.channel[0].Span())
      ensures v !in s.downloaded
    {
      assert v in Bytes(s.channel[0].Span());
      PendingIsRequested(s, v);
    }
  }

  lemma HandleConserves(s: State)
    requires Conserved(s) && s.channel != [] && s.channel[0].Span().End() <= |s.output|
    ensures Conserved(Handle(s))
  {
    hide AllBytes, Overwrite, Spans, Interval;
    SpansFirst(s.channel);
    HeadIsNew(s);
    DisjointUnion(s.downloaded, Positions(s.channel[0].Span()));
  }

  lemma HandleIsGenuine(s: State, remote: seq<byte>)
    requires Genuine(s, remote) && s.channel != []
    ensures Genuine(Handle(s), remote)
    ensures Handle(s).completed != s.completed ==>
              Handle(s).completed == Some(remote) && Handle(s).downloaded == Interval(0, |remote|)
  {
    var t, c := Handle(s), s.channel[0];
    forall v | v in t.downloaded
      ensures v < |remote| && t.output[v] == remote[v]
    {
    }
    if t.completed != s.completed {
      assert forall v :: v in Interval(0, |remote|) ==> v in t.downloaded;
      assert forall v: nat :: v < |remote| ==> v in Interval(0, |remote|);
      assert t.output == remote;
    }
  }

  lemma DataKeeps(s: State, remote: seq<byte>)
    requires Inv(s, remote) && Enabled(s, Data, remote) && s.completed.None?
    ensures Inv(Step(s, Data, remote), remote)
  {
    hide Conserved, Genuine;
    HandleConserves(s);
    HandleIsGenuine(s, remote);
  }

  /** The loop stops as soon as the file is complete. */
  ghost predicate StopsWhenComplete(s: State) { s.completed.Some? ==> !s.running }

  lemma StepKeeps(s: State, e: Event, remote: seq<byte>)
    requires Inv(s, remote) && Enabled(s, e, remote) && StopsWhenComplete(s)
    ensures Inv(Step(s, e, remote), remote) && StopsWhenComplete(Step(s, e, remote))
  {
    hide Inv;
    match e
    case Ask(ranges) => AskKeeps(s, ranges, remote);
    case Body(i, n) => BodyKeeps(s, i, n, remote);
    case Ends(i) => EndsKeeps(s, i, remote);
    case Data => DataKeeps(s, remote);
    case Close => CloseKeeps(s, remote);
  }

  lemma CloseKeeps(s: State, remote: seq<byte>)
    requires Inv(s, remote)
    ensures Inv(s.(running := false), remote)
  {
    hide AllBytes;
  }

  lemma {:induction false} RunKeeps(s: State, events: seq<Event>, remote: seq<byte>)
    requires Inv(s, remote) && StopsWhenComplete(s) && Legal(s, events, remote)
    ensures Inv(Run(s, events, remote), remote) && StopsWhenComplete(Run(s, events, remote))
    decreases |events|
  {
    hide Inv, Enabled, Step;
    if events != [] {
      StepKeeps(s, events[0], remote);
      RunKeeps(Step(s, events[0], remote), events[1..], remote);
    }
  }

  /** One run after another. */
  lemma {:induction false} RunConcat(s: State, a: seq<Event>, b: seq<Event>, remote: seq<byte>)
    requires Legal(s, a, remote) && Legal(Run(s, a, remote), b, remote)
    ensures Legal(s, a + b, remote) && Run(s, a + b, remote) == Run(Run(s, a, remote), b, remote)
    decreases |a|
  {
    hide Enabled, Step;
    if a == [] {
      assert a + b == b;
    } else {
      RunConcat(Step(s, a[0], remote), a[1..], b, remote);
      assert (a + b)[1..] == a[1..] + b;
    }
  }

  // ---- Main results, for every interleaving

  /** `requested` is the disjoint union of what is downloaded, in the channel and owed. */
  lemma RequestedIsConserved(s: State, length: nat, events: seq<Event>, remote: seq<byte>)
    requires Starting(s, length, remote) && Legal(s, events, remote)
    ensures Conserved(Run(s, events, remote))
  {
    StartingInv(s, length, remote);
    RunKeeps(s, events, remote);
  }

  /** The number of pending bytes that the loop computes is exact. */
  lemma PendingBytesCounted(s: State, length: nat, events: seq<Event>, remote: seq<byte>)
    requires Starting(s, length, remote) && Legal(s, events, remote)
    ensures var t := Run(s, events, remote);
            |t.requested - t.downloaded| == TotalLength(Spans(t.channel)) + TotalLength(t.inFlight)
  {
    RequestedIsConserved(s, length, events, remote);
    var t := Run(s, events, remote);
    CountPending(t);
  }

  lemma CountPending(s: State)
    requires Conserved(s)
    ensures s.downloaded <= s.requested
    ensures |s.requested - s.downloaded| == TotalLength(Spans(s.channel)) + TotalLength(s.inFlight)
  {
    forall v | v in s.downloaded
      ensures v in s.requested
    {
      assert multiset(s.downloaded)[v] == 1;
      assert multiset(s.requested)[v] >= 1;
    }
    var left := s.requested - s.downloaded;
    DisjointUnion(left, s.downloaded);
    assert left + s.downloaded == s.requested;
    AllBytesCount(Spans(s.channel));
    AllBytesCount(s.inFlight);
    hide AllBytes, TotalLength;
    assert |multiset(left)| == |left|;
    CancelDownloaded(multiset(left), multiset(s.downloaded), AllBytes(Spans(s.channel)), AllBytes(s.inFlight));
  }

  /** A request never covers a byte that is pending already. */
  lemma NothingAskedTwice(s: State, length: nat, events: seq<Event>, ranges: seq<Range>, remote: seq<byte>)
    requires Starting(s, length, remote) && Legal(s, events, remote)
    requires Enabled(Run(s, events, remote), Ask(ranges), remote)
    ensures var t := Run(s, events, remote);
            forall v :: v in Elements(ranges) ==> v !in AllBytes(Spans(t.channel)) && v !in AllBytes(t.inFlight)
  {
    RequestedIsConserved(s, length, events, remote);
    var t := Run(s, events, remote);
    forall v | v in Elements(ranges)
      ensures v !in AllBytes(Spans(t.channel)) && v !in AllBytes(t.inFlight)
    {
      if v in AllBytes(Spans(t.channel)) || v in AllBytes(t.inFlight) { PendingIsRequested(t, v); }
    }
  }

  /** When a task ends early, exactly the bytes it still owed may be requested again. */
  lemma FailedTailIsRequestable(s: State, length: nat, events: seq<Event>, i: nat, remote: seq<byte>)
    requires Starting(s, length, remote) && Legal(s, events, remote)
    requires Enabled(Run(s, events, remote), Ends(i), remote)
    ensures var t := Run(s, events, remote); var u := Step(t, Ends(i), remote);
            && Positions(t.inFlight[i]) !! u.requested + u.downloaded
            && u.requested + Positions(t.inFlight[i]) == t.requested
            && (t.inFlight[i].length > 0 ==> Enabled(u, Ask([t.inFlight[i]]), remote))
  {
    StartingInv(s, length, remote);
    RunKeeps(s, events, remote);
    var t := Run(s, events, remote);
    OwedIsRequested(t, i);
    ElementsSingle(t.inFlight[i]);
  }

  /** The file is handed over exactly when every byte is downloaded, and then it is the remote file. */
  lemma CompletesExactly(s: State, length: nat, events: seq<Event>, remote: seq<byte>)
    requires Starting(s, length, remote) && Legal(s, events, remote)
    ensures var t := Run(s, events, remote);
            && (t.completed.Some? ==> t.completed.value == remote && t.downloaded == Interval(0, |remote|))
            && (Enabled(t, Data, remote) ==>
                  var u := Step(t, Data, remote);
                  u.completed.Some? <==> u.downloaded == Interval(0, |remote|))
  {
    StartingInv(s, length, remote);
    RunKeeps(s, events, remote);
    var t := Run(s, events, remote);
    if Enabled(t, Data, remote) {
      HandleIsGenuine(t, remote);
      assert t.completed.None?;
    }
  }

  /** Whatever is downloaded can be read, and reads as the remote file. */
  lemma ReadsRemoteBytes(s: State, length: nat, events: seq<Event>, remote: seq<byte>, from: nat, to: nat)
    requires Starting(s, length, remote) && Legal(s, events, remote)
    requires from <= to && Interval(from, to) <= Run(s, events, remote).downloaded
    ensures from < to ==>
              to <= |remote| == |Run(s, events, remote).output| &&
              Run(s, events, remote).output[from..to] == remote[from..to]
  {
    StartingInv(s, length, remote);
    RunKeeps(s, events, remote);
    var t := Run(s, events, remote);
    if from < to {
      assert to - 1 in Interval(from, to);
      forall v | from <= v < to
        ensures t.output[v] == remote[v]
      {
        assert v in Interval(from, to);
      }
    }
  }
}
