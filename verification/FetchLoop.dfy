/**
 The fetcher over its real range sets (audio/src/fetch/receive.rs) and the reader that waits for it
 (audio/src/fetch/mod.rs). Every change to the shared state is one event of `FetchProtocol`, so what
 holds of all its runs is the invariant of the object here.
 */
module FetchLoop {
  import opened Prelude
  import opened RangeSets
  import opened FetchProtocol

  function Max(a: nat, b: nat): nat { if a < b then b else a }

  function Min(a: nat, b: nat): nat { if a < b then a else b }

  /** How much `download_range` really asks for. */
  function Reach(offset: nat, length: nat, minimum: nat, throughput: Option<nat>, size: nat): (n: nat)
    requires offset <= size
    ensures offset + n <= size && (minimum > 0 && offset < size ==> n > 0)
    ensures offset + n < size ==> n >= length && n >= minimum && (throughput.Some? ==> n >= throughput.value)
    ensures n <= length || n <= minimum || (throughput.Some? && n <= throughput.value)
  {
    var atLeast := Max(length, minimum);
    var wanted := if throughput.Some? then Max(atLeast, throughput.value) else atLeast;
    if offset + wanted > size then size - offset else wanted
  }

  ghost function Missing(s: State, size: nat): set<nat> {
    Interval(0, size) - s.requested - s.downloaded
  }

  /** What is still to be asked of an interval. */
  ghost function Unasked(s: State, from: nat, to: nat): set<nat> {
    Interval(from, to) - s.requested - s.downloaded
  }

  /** `Underflow` is an unsigned subtraction below zero. */
  datatype Asked = Sent | Refused | Underflow

  /** What the other threads may do: the fetch loop, its tasks and the server's bodies. */
  datatype Action =
    | Fetch(range: Range, throughput: Option<nat>, refused: Option<nat>)
    | Prefetch(bytes: nat, throughput: Option<nat>, refused: Option<nat>)
    | Arrive(task: nat, n: nat)
    | Finish(task: nat)
    | Store
    | Shut

  class AudioFileFetch {
    const remote: seq<byte>           // the file on the server
    const fileSize: nat
    const minimum: nat                // minimum_download_size
    const requested: RangeSet
    const downloaded: RangeSet
    var inFlight: seq<Range>
    var channel: seq<Chunk>
    var output: seq<byte>
    var completed: Option<seq<byte>>
    var running: bool
    var readPosition: nat

    ghost predicate Shaped()
      reads this, requested, downloaded
    {
      requested.Valid() && downloaded.Valid() && requested != downloaded && |output| == fileSize == |remote|
    }

    /** Every requested byte is accounted for once, and every downloaded byte is the server's. */
    ghost predicate Valid()
      reads this, requested, downloaded
    {
      Shaped() && Inv(View(), remote) && StopsWhenComplete(View())
    }

    ghost function View(): State
      reads this, requested, downloaded
    {
      State(requested.Set(), downloaded.Set(), inFlight, channel, output, completed, running)
    }

    /** `audio_file_fetch` up to its loop; `length` bytes were announced by the first response. */
    constructor (remote: seq<byte>, fileSize: nat, minimum: nat, length: nat, output: seq<byte>)
      requires |remote| == fileSize == |output| && length <= fileSize
      ensures Valid() && Starting(View(), length, remote) && fresh(requested) && fresh(downloaded)
      ensures this.remote == remote && this.fileSize == fileSize && this.minimum == minimum
    {
      this.remote, this.fileSize, this.minimum := remote, fileSize, minimum;
      this.output, completed, running, readPosition := output, None, true, 0;
      requested := new RangeSet();
      downloaded := new RangeSet();
      inFlight, channel := [Range(0, length)], [];
      new;
      requested.AddRange(Range(0, length));
      StartingInv(View(), length, remote);
    }

    /** `throughput` is given in streaming mode; `refused` says which request cannot be sent, if any. */
    method DownloadRange(offset: nat, length: nat, throughput: Option<nat>, refused: Option<nat>)
      returns (r: Asked, ghost asked: seq<Range>)
      requires Valid() && running
      modifies this`inFlight, requested
      ensures Valid() && (r.Underflow? <==> offset > fileSize)
      ensures Enabled(old(View()), Ask(asked), remote) && View() == Step(old(View()), Ask(asked), remote)
      ensures r.Underflow? ==> asked == [] && View() == old(View())
      ensures r.Refused? ==> refused.Some? && |asked| == refused.value
      ensures !r.Underflow? ==>
                var all := Unasked(old(View()), offset, offset + Reach(offset, length, minimum, throughput, fileSize));
                Elements(asked) <= all && (r.Sent? ==> Elements(asked) == all)
    {
      hide Elements, Canonical, Inv, Step;
      if offset > fileSize {
        AskNothing(View(), remote);
        return Underflow, [];
      }
      var n := Reach(offset, length, minimum, throughput, fileSize);
      var ranges := new RangeSet();
      ranges.AddRange(Range(offset, n));
      ranges.SubtractRangeSet(downloaded);
      ranges.SubtractRangeSet(requested);
      assert ranges.Set() == Unasked(View(), offset, offset + n);
      r, asked := Request(ranges.ranges, refused, offset + n);
      if r.Refused? { TakeSubset(ranges.ranges, refused.value); }
    }

    /** The request loop of `download_range`. */
    method Request(ranges: seq<Range>, refused: Option<nat>, ghost end: nat)
      returns (r: Asked, ghost asked: seq<Range>)
      requires Valid() && running && Canonical(ranges)
      requires end <= fileSize && forall v :: v in Elements(ranges) ==> v < end
      requires Elements(ranges) !! requested.Set() + downloaded.Set()
      modifies this`inFlight, requested
      ensures Valid() && !r.Underflow? && (r.Sent? <==> refused.None? || refused.value >= |ranges|)
      ensures asked == if r.Sent? then ranges else ranges[..refused.value]
      ensures Enabled(old(View()), Ask(asked), remote) && View() == Step(old(View()), Ask(asked), remote)
    {
      hide Inv, Canonical, Elements;
      ghost var s := View();
      WithinBound(ranges, end, fileSize);
      assert ranges[..0] == [];
      ElementsNone();
      for i := 0 to |ranges|
        invariant Shaped() && downloaded.Set() == s.downloaded
        invariant requested.Set() == s.requested + Elements(ranges[..i])
        invariant inFlight == s.inFlight + ranges[..i]
        invariant refused.Some? ==> refused.value >= i
      {
        if refused == Some(i) {
          PrefixIsFresh(s, ranges, i, remote);
          StepKeeps(s, Ask(ranges[..i]), remote);
          return Refused, ranges[..i];
        }
        ElementsTake(ranges, i);
        requested.AddRange(ranges[i]);
        inFlight := inFlight + [ranges[i]];
      }
      assert ranges[..|ranges|] == ranges;
      StepKeeps(s, Ask(ranges), remote);
      return Sent, ranges;
    }

    /** Asks for more of what is missing: after the read position first, then from the start. */
    method PreFetchMoreData(bytes: nat, throughput: Option<nat>, refused: Option<nat>)
      returns (r: Asked, ghost asked: seq<Range>)
      requires Valid() && running
      modifies this`inFlight, requested
      ensures Valid() && (r.Underflow? <==> readPosition > fileSize)
      ensures Enabled(old(View()), Ask(asked), remote) && View() == Step(old(View()), Ask(asked), remote)
      ensures r.Underflow? ==> asked == [] && View() == old(View())
      ensures r.Sent? && minimum > 0 ==>
                forall v :: IsNextMissing(old(View()), fileSize, readPosition, v) ==> v in Elements(asked)
      ensures r.Sent? ==>
                forall v: nat, w :: IsNextMissing(old(View()), fileSize, readPosition, v) && w in Elements(asked) ==>
                  && v <= w
                  && (w < v + bytes || w < v + minimum || (throughput.Some? && w < v + throughput.value))
      ensures !r.Underflow? && Missing(old(View()), fileSize) == {} ==> r.Sent? && asked == []
    {
      hide Elements, Canonical, Inv, Step;
      ElementsNone();
      AskNothing(View(), remote);
      if readPosition > fileSize { return Underflow, []; }
      var first := FirstMissing();
      if first.Some? {
        r, asked := DownloadRange(first.value.start, Min(first.value.length, bytes), throughput, refused);
      } else {
        r, asked := Sent, [];
      }
    }

    /** The first missing range after the read position, or else the first of all. */
    method FirstMissing() returns (first: Option<Range>)
      requires Valid() && readPosition <= fileSize
      ensures first.None? <==> Missing(View(), fileSize) == {}
      ensures first.Some? ==> first.value.start < fileSize
      ensures first.Some? ==> IsNextMissing(View(), fileSize, readPosition, first.value.start)
    {
      hide Elements, Canonical, Inv;
      var missing := new RangeSet();
      missing.AddRange(Range(0, fileSize));
      missing.SubtractRangeSet(downloaded);
      missing.SubtractRangeSet(requested);
      assert missing.Set() == Missing(View(), fileSize);
      var tail := new RangeSet();
      tail.AddRange(Range(readPosition, fileSize - readPosition));
      tail := tail.Intersection(missing);
      assert tail.Set() == Missing(View(), fileSize) * Interval(readPosition, fileSize);
      var noTail := tail.IsEmpty();
      var nothing := missing.IsEmpty();
      if !noTail {
        FirstIsLeast(tail.ranges);
        first := Some(tail.ranges[0]);
      } else if !nothing {
        FirstIsLeast(missing.ranges);
        first := Some(missing.ranges[0]);
      } else {
        first := None;
      }
    }

    /** A response body of `n` bytes reaches a `receive_data` task, which passes it on. */
    method BodyArrives(task: nat, n: nat)
      requires Valid() && Enabled(View(), Body(task, n), remote)
      modifies this`inFlight, this`channel
      ensures Valid() && View() == Step(old(View()), Body(task, n), remote)
    {
      hide Inv;
      ghost var s := View();
      var r := inFlight[task];
      channel := channel + [Chunk(r.start, remote[r.start..r.start + n])];
      inFlight := inFlight[task := Range(r.start + n, r.length - n)];
      StepKeeps(s, Body(task, n), remote);
    }

    /** The end of a `receive_data` task gives back what was not received. */
    method TaskEnds(task: nat)
      requires Valid() && Enabled(View(), Ends(task), remote)
      modifies this`inFlight, requested
      ensures Valid() && View() == Step(old(View()), Ends(task), remote)
    {
      hide Inv, Elements, Canonical;
      ghost var s := View();
      var r := inFlight[task];
      if r.length > 0 {
        requested.SubtractRange(r);
      } else {
        assert Positions(r) == {};
      }
      inFlight := inFlight[..task] + inFlight[task + 1..];
      assert View() == Step(s, Ends(task), remote);
      StepKeeps(s, Ends(task), remote);
    }

    method HandleFileData()
      requires Valid() && Enabled(View(), Data, remote)
      modifies this`channel, this`output, this`completed, this`running, downloaded
      ensures Valid() && View() == Step(old(View()), Data, remote)
    {
      hide Elements, Canonical, Inv;
      ghost var s := View();
      var c := channel[0];
      channel := channel[1..];
      output := output[..c.offset] + c.data + output[c.offset + |c.data|..];
      downloaded.AddRange(Range(c.offset, |c.data|));
      var n := downloaded.ContainedLengthFromValue(0);
      FullWhenRunReachesEnd(downloaded.ranges, n, fileSize);
      if n >= fileSize {
        completed := Some(output);
        running := false;
      }
      StepKeeps(s, Data, remote);
    }

    /** The number the loop compares with its target before it prefetches. */
    method BytesPending() returns (n: nat)
      requires Valid()
      ensures n == TotalLength(Spans(channel)) + TotalLength(inFlight)
    {
      hide Elements, Canonical, AllBytes, Genuine;
      var pending := requested.Minus(downloaded);
      n := pending.Len();
      CountPending(View());
    }

    /** The end of the fetch loop, by command or because a request could not be sent. */
    method Stop()
      requires Valid() && running
      modifies this`running
      ensures Valid() && !running && View() == Step(old(View()), Close, remote)
    {
      hide Inv;
      ghost var s := View();
      running := false;
      StepKeeps(s, Close, remote);
    }

    /** A request, after which the loop goes on unless it was refused. */
    method Answer(r: Asked, ghost asked: seq<Range>, ghost s: State) returns (ghost events: seq<Event>)
      requires Valid() && running && Enabled(s, Ask(asked), remote) && View() == Step(s, Ask(asked), remote)
      modifies this`running
      ensures Valid() && (running <==> !r.Refused?)
      ensures Legal(s, events, remote) && View() == Run(s, events, remote)
    {
      hide Inv, Step, Enabled;
      OneEvent(s, Ask(asked), remote);
      events := [Ask(asked)];
      if r.Refused? {
        assert Enabled(View(), Close, remote) by { CloseIsEnabled(View(), remote); }
        OneEvent(View(), Close, remote);
        RunConcat(s, [Ask(asked)], [Close], remote);
        Stop();
        events := [Ask(asked)] + [Close];
      }
    }

    /** A `Fetch` command: unless a request is refused, every byte of the range is then on its way or there. */
    method HandleFetch(range: Range, throughput: Option<nat>, refused: Option<nat>) returns (ghost events: seq<Event>)
      requires Valid() && running
      modifies this`inFlight, this`running, requested
      ensures Valid() && Legal(old(View()), events, remote) && View() == Run(old(View()), events, remote)
      ensures refused.None? && range.start <= fileSize ==> running && AllAsked(View(), range, fileSize)
    {
      hide Inv, Elements, Canonical;
      ghost var s := View();
      var r, asked := DownloadRange(range.start, range.length, throughput, refused);
      if r.Sent? {
        AsksAll(s, View(), range, Reach(range.start, range.length, minimum, throughput, fileSize), fileSize);
      }
      hide Step;
      events := Answer(r, asked, s);
    }

    /** Another thread takes its turn, if it can. */
    method Act(action: Action) returns (ghost events: seq<Event>)
      requires Valid()
      modifies this`inFlight, this`channel, this`output, this`completed, this`running, requested, downloaded
      ensures Valid() && (action.Shut? ==> !running)
      ensures old(running) && action.Arrive? && action.task < |old(inFlight)| ==>
                action.n <= old(inFlight)[action.task].length ==> events == [Body(action.task, action.n)]
      ensures old(running) && action.Finish? && action.task < |old(inFlight)| ==> events == [Ends(action.task)]
      ensures old(running) && action.Store? && old(channel) != [] ==> events == [Data]
      ensures old(running) && action.Fetch? && action.refused.None? && action.range.start <= fileSize ==>
                AllAsked(View(), action.range, fileSize)
      ensures Legal(old(View()), events, remote) && View() == Run(old(View()), events, remote)
    {
      hide Inv, Step, Elements, Canonical;
      events := [];
      if !running { return; }
      PendingInside(View(), remote);
      ghost var s := View();
      match action {
        case Fetch(range, throughput, refused) =>
          events := HandleFetch(range, throughput, refused);
        case Prefetch(bytes, throughput, refused) =>
          var r, asked := PreFetchMoreData(bytes, throughput, refused);
          events := Answer(r, asked, s);
        case Arrive(task, n) =>
          if task < |inFlight| && n <= inFlight[task].length {
            OneEvent(s, Body(task, n), remote);
            events := [Body(task, n)];
            BodyArrives(task, n);
          }
        case Finish(task) =>
          if task < |inFlight| {
            OneEvent(s, Ends(task), remote);
            events := [Ends(task)];
            TaskEnds(task);
          }
        case Store =>
          if channel != [] {
            OneEvent(s, Data, remote);
            events := [Data];
            HandleFileData();
          }
        case Shut =>
          OneEvent(s, Close, remote);
          events := [Close];
          Stop();
      }
    }
  }

  // ---- The reader

  function Extra(ahead: Option<nat>): nat { if ahead.Some? then ahead.value else 0 }

  /** How far a read asks: what it was asked for, and the read-ahead in streaming mode. */
  function ReadReach(position: nat, wanted: nat, ahead: Option<nat>, size: nat): (n: nat)
    ensures position <= size ==> position + n <= size
    ensures position < size && wanted > 0 ==>
              n == if position + wanted + Extra(ahead) < size then wanted + Extra(ahead) else size - position
  {
    if position >= size || wanted == 0 then 0
    else
      var length := Min(wanted, size - position);
      if ahead.Some? then Min(length + ahead.value, size - position) else length
  }

  datatype ReadResult = Bytes(data: seq<byte>) | TimedOut | BrokenPipe

  class AudioFileStreaming {
    const fetch: AudioFileFetch
    var position: nat

    constructor (fetch: AudioFileFetch)
      ensures this.fetch == fetch && position == 0
    {
      this.fetch, position := fetch, 0;
    }

    /** The ranges a read sends to the fetch loop: what is neither downloaded nor requested of its reach. */
    method Wanted(length: nat) returns (ranges: seq<Range>)
      requires fetch.Valid()
      ensures Canonical(ranges) && Elements(ranges) == Unasked(fetch.View(), position, position + length)
    {
      hide Elements, Canonical, Inv;
      var set_ := new RangeSet();
      set_.AddRange(Range(position, length));
      set_.SubtractRangeSet(fetch.downloaded);
      set_.SubtractRangeSet(fetch.requested);
      ranges := set_.ranges;
    }

    /**
     The waiting loop: each element of `wakeups` is what the other threads do until the next
     notification; then a wait times out, whatever they do during it. The loop succeeds exactly when
     the byte was there at its last look, after the events `seen`, and does not wait for one that is.
     */
    method Wait(wakeups: seq<seq<Action>>, meanwhile: seq<Action>)
      returns (ok: bool, ghost events: seq<Event>, ghost seen: seq<Event>)
      requires fetch.Valid()
      modifies fetch`inFlight, fetch`channel, fetch`output, fetch`completed, fetch`running,
               fetch.requested, fetch.downloaded
      ensures fetch.Valid() && (ok ==> position in fetch.downloaded.Set())
      ensures Legal(old(fetch.View()), events, fetch.remote)
      ensures fetch.View() == Run(old(fetch.View()), events, fetch.remote)
      ensures seen <= events && Legal(old(fetch.View()), seen, fetch.remote)
      ensures ok <==> position in Run(old(fetch.View()), seen, fetch.remote).downloaded
      ensures position in old(fetch.View()).downloaded ==> ok && events == []
    {
      hide Inv, Step, Elements, Canonical, Enabled;
      events := [];
      ok := fetch.downloaded.Contains(position);
      var i := 0;
      while !ok && i < |wakeups|
        invariant fetch.Valid() && (ok <==> position in fetch.downloaded.Set())
        invariant Legal(old(fetch.View()), events, fetch.remote)
        invariant fetch.View() == Run(old(fetch.View()), events, fetch.remote)
        invariant position in old(fetch.View()).downloaded ==> ok && events == []
        decreases |wakeups| - i
      {
        ghost var more := Others(wakeups[i]);
        RunConcat(old(fetch.View()), events, more, fetch.remote);
        events := events + more;
        ok := fetch.downloaded.Contains(position);
        i := i + 1;
      }
      seen := events;
      if !ok {
        ghost var more := Others(meanwhile);
        RunConcat(old(fetch.View()), events, more, fetch.remote);
        events := events + more;
      }
    }

    /** The other threads, one after the other. */
    method Others(actions: seq<Action>) returns (ghost events: seq<Event>)
      requires fetch.Valid()
      modifies fetch`inFlight, fetch`channel, fetch`output, fetch`completed, fetch`running,
               fetch.requested, fetch.downloaded
      ensures fetch.Valid() && Legal(old(fetch.View()), events, fetch.remote)
      ensures fetch.View() == Run(old(fetch.View()), events, fetch.remote)
    {
      hide Inv, Step, Elements, Canonical, Enabled;
      events := [];
      for k := 0 to |actions|
        invariant fetch.Valid()
        invariant Legal(old(fetch.View()), events, fetch.remote)
        invariant fetch.View() == Run(old(fetch.View()), events, fetch.remote)
      {
        ghost var more := fetch.Act(actions[k]);
        RunConcat(old(fetch.View()), events, more, fetch.remote);
        events := events + more;
      }
    }

    /**
     `AudioFileStreaming::read`: `ahead` is the read-ahead in streaming mode. Whatever the other threads
     do, it returns the remote file's next bytes, at least one unless it is at the end, or gives up.
     */
    method Read(wanted: nat, ahead: Option<nat>, wakeups: seq<seq<Action>>, meanwhile: seq<Action>)
      returns (r: ReadResult, commands: seq<Range>, ghost events: seq<Event>)
      requires fetch.Valid()
      modifies this, fetch, fetch.requested, fetch.downloaded
      ensures fetch.Valid() && Legal(old(fetch.View()), events, fetch.remote)
      ensures fetch.View() == Run(old(fetch.View()), events, fetch.remote)
      ensures Elements(commands) == Unasked(old(fetch.View()), old(position),
                                            old(position) + ReadReach(old(position), wanted, ahead, fetch.fileSize))
      ensures old(position) < fetch.fileSize && wanted > 0 ==>
                var end := old(position) + wanted + (if ahead.Some? then ahead.value else 0);
                && Elements(commands) ==
                     Unasked(old(fetch.View()), old(position), if end < fetch.fileSize then end else fetch.fileSize)
                && old(position) in old(fetch.View()).downloaded + old(fetch.View()).requested + Elements(commands)
      ensures r.Bytes? ==> position == old(position) + |r.data| && |r.data| <= wanted
      ensures !r.Bytes? ==> position == old(position)
      ensures r.Bytes? && r.data != [] ==> position <= |fetch.remote|
      ensures r.Bytes? && r.data != [] ==> r.data == fetch.remote[old(position)..position]
      ensures r == Bytes([]) <==> old(position) >= fetch.fileSize || wanted == 0
      ensures r.BrokenPipe? <==>
                old(position) < fetch.fileSize && wanted > 0 && !old(fetch.running) && commands != []
      ensures r.TimedOut? ==> old(position) !in old(fetch.View()).downloaded
      ensures r.Bytes? && r.data != [] ==>
                |r.data| == wanted || position == fetch.fileSize || position !in fetch.downloaded.Set()
      ensures r.Bytes? && r.data != [] ==> fetch.readPosition == position
    {
      hide Elements, Canonical, Inv, Enabled, Step;
      ElementsNone();
      commands, events := [], [];
      if position >= fetch.fileSize || wanted == 0 { return Bytes([]), [], []; }
      commands := Wanted(ReadReach(position, wanted, ahead, fetch.fileSize));
      assert position in Interval(position, position + ReadReach(position, wanted, ahead, fetch.fileSize));
      if commands != [] && !fetch.running { return BrokenPipe, commands, []; }
      var ok;
      ghost var seen;
      ok, events, seen := Wait(wakeups, meanwhile);
      if !ok { return TimedOut, commands, events; }
      r := Deliver(Min(wanted, fetch.fileSize - position));
    }

    /** The end of a read: what is downloaded at the position, up to the length wanted. */
    method Deliver(length: nat) returns (r: ReadResult)
      requires fetch.Valid() && position in fetch.downloaded.Set() && 0 < length <= fetch.fileSize - position
      modifies this, fetch`readPosition
      ensures fetch.Valid() && fetch.View() == old(fetch.View()) && r.Bytes? && 0 < |r.data| <= length
      ensures position == old(position) + |r.data| == fetch.readPosition && position <= |fetch.remote|
      ensures r.data == fetch.remote[old(position)..position]
      ensures |r.data| == length || position !in fetch.downloaded.Set()
    {
      hide Elements, Canonical, Conserved;
      var available := fetch.downloaded.ContainedLengthFromValue(position);
      assert available > 0;
      var n := Min(length, available);
      DownloadedIsRemote(fetch.View(), fetch.remote, position, n);
      r := Bytes(fetch.output[position..position + n]);
      position := position + n;
      fetch.readPosition := position;
    }
  }

  /** `range_available` for a streamed file, and for a local one that has no shared status. */
  class StreamLoaderController {
    const shared: Option<AudioFileFetch>
    const fileSize: nat

    constructor (shared: Option<AudioFileFetch>, fileSize: nat)
      ensures this.shared == shared && this.fileSize == fileSize
    {
      this.shared, this.fileSize := shared, fileSize;
    }

    /** `None` is an unsigned subtraction below zero. */
    method RangeAvailable(range: Range) returns (r: Option<bool>)
      requires shared.Some? ==> shared.value.Valid()
      ensures r.None? <==> shared.None? && range.start > fileSize
      ensures r.Some? && shared.Some? ==> (r.value <==> Positions(range) <= shared.value.downloaded.Set())
      ensures r.Some? && shared.None? ==> (r.value <==> Positions(range) <= Interval(0, fileSize))
    {
      hide Elements, Canonical, Inv;
      if shared.Some? {
        var n := shared.value.downloaded.ContainedLengthFromValue(range.start);
        CoveredWhenRunIsLonger(shared.value.downloaded.ranges, range, n);
        r := Some(range.length <= n);
      } else if range.start > fileSize {
        r := None;
      } else {
        InsideFile(range, fileSize);
        r := Some(range.length <= fileSize - range.start);
      }
    }
  }

  lemma InsideFile(range: Range, size: nat)
    requires range.start <= size
    ensures range.length <= size - range.start <==> Positions(range) <= Interval(0, size)
  {
    if range.length > size - range.start {
      assert size in Positions(range) && size !in Interval(0, size);
    }
  }

  /** Asking for nothing changes nothing. */
  lemma AskNothing(s: State, remote: seq<byte>)
    requires s.running
    ensures Enabled(s, Ask([]), remote) && Step(s, Ask([]), remote) == s
  {
  }

  lemma TakeSubset(rs: seq<Range>, k: nat)
    requires k <= |rs|
    ensures Elements(rs[..k]) <= Elements(rs)
  {
    ElementsConcat(rs[..k], rs[k..]);
    assert rs[..k] + rs[k..] == rs;
  }

  /** Tasks and chunks lie inside the file. */
  lemma PendingInside(s: State, remote: seq<byte>)
    requires Inv(s, remote)
    ensures forall i :: 0 <= i < |s.inFlight| ==> s.inFlight[i].End() <= |remote|
    ensures s.channel != [] ==> s.channel[0].Span().End() <= |s.output|
  {
    hide Conserved;
  }

  /** Every byte of the range inside the file is requested or downloaded. */
  ghost predicate AllAsked(s: State, range: Range, size: nat) {
    forall v :: v in Interval(range.start, if range.End() < size then range.End() else size) ==>
                  v in s.requested || v in s.downloaded
  }

  lemma AsksAll(s: State, r: State, range: Range, n: nat, size: nat)
    requires range.start + n <= size && (range.start + n < size ==> n >= range.length)
    requires r.downloaded == s.downloaded && r.requested >= s.requested + Unasked(s, range.start, range.start + n)
    ensures AllAsked(r, range, size)
  {
  }

  lemma OneEvent(s: State, e: Event, remote: seq<byte>)
    requires Enabled(s, e, remote)
    ensures Legal(s, [e], remote) && Run(s, [e], remote) == Step(s, e, remote)
  {
    hide Enabled, Step;
    assert [e][1..] == [];
  }

  lemma CloseIsEnabled(s: State, remote: seq<byte>)
    requires s.running
    ensures Enabled(s, Close, remote)
  {
  }

  lemma DownloadedIsRemote(s: State, remote: seq<byte>, position: nat, n: nat)
    requires Genuine(s, remote) && n > 0 && Interval(position, position + n) <= s.downloaded
    ensures position + n <= |remote| == |s.output| && s.output[position..position + n] == remote[position..position + n]
  {
    assert position + n - 1 in Interval(position, position + n);
    forall v | position <= v < position + n
      ensures s.output[v] == remote[v]
    {
      assert v in Interval(position, position + n);
    }
  }

  /** The byte that `pre_fetch_more_data` should fetch next. */
  ghost predicate IsNextMissing(s: State, size: nat, position: nat, v: nat) {
    var tail := Missing(s, size) * Interval(position, size);
    var pool := if tail == {} then Missing(s, size) else tail;
    v in pool && forall w :: w in pool ==> v <= w
  }

  lemma FirstIsLeast(rs: seq<Range>)
    requires Canonical(rs) && Elements(rs) != {}
    ensures rs != [] && rs[0].start in Elements(rs)
    ensures forall v :: v in Elements(rs) ==> rs[0].start <= v
  {
    assert rs != [];
    ElementsFromFirst(rs);
  }

  lemma FullWhenRunReachesEnd(rs: seq<Range>, n: nat, size: nat)
    requires RunLength(rs, 0, n)
    ensures n >= size <==> Interval(0, size) <= Elements(rs)
  {
    hide Elements;
    assert n in Interval(0, size) <==> n < size;
    assert n >= size ==> Interval(0, size) <= Interval(0, n);
  }

  lemma CoveredWhenRunIsLonger(rs: seq<Range>, range: Range, n: nat)
    requires RunLength(rs, range.start, n)
    ensures range.length <= n <==> Positions(range) <= Elements(rs)
  {
    hide Elements;
    assert range.start + n in Positions(range) <==> n < range.length;
    assert range.length <= n ==> Positions(range) <= Interval(range.start, range.start + n);
  }

  lemma WithinBound(rs: seq<Range>, end: nat, size: nat)
    requires Canonical(rs) && end <= size && forall v :: v in Elements(rs) ==> v < end
    ensures Within(rs, size)
  {
    hide Elements;
    forall i | 0 <= i < |rs|
      ensures rs[i].End() <= size
    {
      InElements(rs, i);
      assert rs[i].End() - 1 in Positions(rs[i]);
    }
  }

  lemma PrefixIsFresh(s: State, ranges: seq<Range>, i: nat, remote: seq<byte>)
    requires Enabled(s, Ask(ranges), remote) && i <= |ranges|
    ensures Enabled(s, Ask(ranges[..i]), remote)
  {
    hide Elements, Canonical;
    CanonicalTake(ranges, i);
    ElementsConcat(ranges[..i], ranges[i..]);
    assert ranges[..i] + ranges[i..] == ranges;
  }

  lemma CanonicalTake(rs: seq<Range>, i: nat)
    requires Canonical(rs) && i <= |rs|
    ensures Canonical(rs[..i])
  {
  }
}
