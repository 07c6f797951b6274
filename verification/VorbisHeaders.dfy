/**
 The incremental Vorbis header parser of the bridge (native/bridge/bridge.rs, `Headers`).

 `Observe` looks at one page at a time and keeps at most 16 bytes of the packet it is in.
 The reference is the textbook order: reassemble every packet from the lacing values
 (appendix A of the Vorbis I specification), then validate the three header packets
 (sections 4.2.1 and 4.2.2).
 */
module VorbisHeaders {
  import opened Prelude
  import opened Sequences
  import opened OggPages

  const MAX_HEADERS: nat := 65536
  const VORBIS: seq<byte> := [0x76, 0x6f, 0x72, 0x62, 0x69, 0x73]

  datatype HeaderError =
    | NoMatchingBos | HeadersTooLong | AudioSharesPage | BadSignature | ShortIdentification | BadRate

  datatype Result<T> = Ok(value: T) | Err(error: HeaderError)

  function LittleEndian32(s: seq<byte>): nat
    requires |s| == 4
  {
    s[0] as int + 256 * (s[1] as int + 256 * (s[2] as int + 256 * (s[3] as int)))
  }

  function Serial(p: Page): nat { LittleEndian32(p[14..18]) }

  predicate IsBos(p: Page) { p[5] % 4 >= 2 }

  /** The fields of a page as section 6 of RFC 3533 lays them out. */
  lemma PageFields(p: Page)
    ensures IsBos(p) <==> p[5] / 2 % 2 == 1
    ensures Serial(p) == p[14] as int + 0x100 * (p[15] as int) + 0x1_0000 * (p[16] as int) + 0x100_0000 * (p[17] as int)
  {
    var s := p[14..18];
    hide IsPage;
    assert s[0] == p[14] && s[1] == p[15] && s[2] == p[16] && s[3] == p[17];
  }

  // ---- Lacing: a page as the segments of its packets

  datatype Segment = Segment(size: byte, data: seq<byte>)

  function Lacing(p: Page): seq<byte> { p[27..27 + TableSize(p)] }

  function SegmentStart(p: Page, k: nat): (n: nat)
    requires k <= TableSize(p)
    ensures 27 + TableSize(p) <= n <= |p|
  {
    SumMonotone(Lacing(p), k);
    27 + TableSize(p) + Sum(Lacing(p)[..k])
  }

  function SegmentAt(p: Page, k: nat): (s: Segment)
    requires k < TableSize(p)
    ensures |s.data| == s.size && s.size == Lacing(p)[k]
  {
    SumTake(Lacing(p), k);
    Segment(Lacing(p)[k], p[SegmentStart(p, k)..SegmentStart(p, k + 1)])
  }

  function SegmentsUpTo(p: Page, k: nat): (ss: seq<Segment>)
    requires k <= TableSize(p)
    ensures |ss| == k
  {
    if k == 0 then [] else SegmentsUpTo(p, k - 1) + [SegmentAt(p, k - 1)]
  }

  function Segments(p: Page): seq<Segment> { SegmentsUpTo(p, TableSize(p)) }

  function AllSegments(ps: seq<Page>): seq<Segment> {
    if ps == [] then [] else AllSegments(ps[..|ps| - 1]) + Segments(ps[|ps| - 1])
  }

  // ---- Reference: reassemble first, validate afterwards

  datatype Packets = Packets(done: seq<seq<byte>>, partial: seq<byte>)

  /** A segment shorter than 255 bytes ends its packet. */
  function Push(before: Packets, s: Segment): Packets {
    var grown := before.partial + s.data;
    if s.size < 255 then Packets(before.done + [grown], []) else Packets(before.done, grown)
  }

  function Reassemble(segments: seq<Segment>): Packets {
    if segments == [] then Packets([], [])
    else Push(Reassemble(segments[..|segments| - 1]), segments[|segments| - 1])
  }

  /** The sample rate, in bytes 12 to 15 of the identification header. */
  function RateOf(packet: seq<byte>): nat
    requires |packet| >= 16
  {
    packet[12] as int + 0x100 * (packet[13] as int) + 0x1_0000 * (packet[14] as int) + 0x100_0000 * (packet[15] as int)
  }

  /** Header packets have the types 1, 3 and 5, and the name of the codec. */
  predicate ValidHeader(index: nat, packet: seq<byte>) {
    && |packet| >= 7
    && packet[0] == 1 + 2 * index
    && packet[1] == 'v' as int && packet[2] == 'o' as int && packet[3] == 'r' as int
    && packet[4] == 'b' as int && packet[5] == 'i' as int && packet[6] == 's' as int
    && (index == 0 ==> |packet| >= 16 && 1 <= RateOf(packet) <= 192000)
  }

  predicate ValidHeaders(done: seq<seq<byte>>) {
    forall i :: 0 <= i < |done| && i < 3 ==> ValidHeader(i, done[i])
  }

  /** The third packet, once it is complete, ends its page. */
  predicate EndsWithSetup(segments: seq<Segment>) {
    segments != [] ==> |Reassemble(segments[..|segments| - 1]).done| <= 2
  }

  predicate WellFormedHeaders(segments: seq<Segment>) {
    ValidHeaders(Reassemble(segments).done) && EndsWithSetup(segments)
  }

  function PacketCount(ps: seq<Page>): nat { |Reassemble(AllSegments(ps)).done| }

  /** How many pages of a stream carry headers: all up to the one completing the third packet. */
  function HeaderPages(ps: seq<Page>): (n: nat)
    ensures n <= |ps|
  {
    if ps == [] then 0
    else if PacketCount(ps[..|ps| - 1]) >= 3 then HeaderPages(ps[..|ps| - 1])
    else |ps|
  }

  /** The verdict of the reference on a whole logical stream. */
  predicate Acceptable(ps: seq<Page>) {
    var headers := ps[..HeaderPages(ps)];
    WellFormedHeaders(AllSegments(headers)) && |Concat(headers)| <= 65536
  }

  /** One logical stream: a first page with the BOS flag, then pages of the same serial without it. */
  predicate IsStream(ps: seq<Page>) {
    && ps != [] && IsBos(ps[0])
    && (forall i :: 1 <= i < |ps| ==> !IsBos(ps[i]))
    && (forall i :: 0 <= i < |ps| ==> Serial(ps[i]) == Serial(ps[0]))
  }

  // ---- The parser as a function of its fields

  datatype Fields = Fields(serial: Option<nat>, bytes: seq<byte>, packets: nat, prefix: seq<byte>, rate: nat) {
    predicate Sane() { packets <= 3 && |prefix| <= 16 && (packets > 0 ==> 1 <= rate <= 192000) }
  }

  const NO_HEADERS: Fields := Fields(None, [], 0, [], 0)

  function HeaderType(index: nat): byte
    requires index < 3
  {
    [1, 3, 5][index]
  }

  function Rate(identification: seq<byte>): nat
    requires |identification| >= 16
  {
    LittleEndian32(identification[12..16])
  }

  function Check(packets: nat, prefix: seq<byte>, rate: nat): (r: Result<nat>)
    requires packets < 3
  {
    if |prefix| < 7 || prefix[0] != HeaderType(packets) || prefix[1..7] != VORBIS then Err(BadSignature)
    else if packets > 0 then Ok(rate)
    else if |prefix| < 16 then Err(ShortIdentification)
    else if Rate(prefix) == 0 || Rate(prefix) > 192000 then Err(BadRate)
    else Ok(Rate(prefix))
  }

  function Take16(s: seq<byte>): (r: seq<byte>)
    ensures |r| <= 16 && r <= s
  {
    if |s| <= 16 then s else s[..16]
  }

  function ScanOne(h: Fields, s: Segment): (r: Result<Fields>)
    requires h.Sane()
    ensures r.Ok? ==> r.value.Sane() && r.value.serial == h.serial && r.value.bytes == h.bytes
  {
    if h.packets == 3 then Err(AudioSharesPage)
    else
      var prefix := Take16(h.prefix + s.data);
      if s.size == 255 then Ok(h.(prefix := prefix))
      else
        var rate := Check(h.packets, prefix, h.rate);
        if rate.Err? then Err(rate.error)
        else Ok(h.(packets := h.packets + 1, prefix := [], rate := rate.value))
  }

  function Scan(h: Fields, segments: seq<Segment>): (r: Result<Fields>)
    requires h.Sane()
    ensures r.Ok? ==> r.value.Sane() && r.value.serial == h.serial && r.value.bytes == h.bytes
  {
    if segments == [] then Ok(h)
    else
      var before := Scan(h, segments[..|segments| - 1]);
      if before.Err? then before else ScanOne(before.value, segments[|segments| - 1])
  }

  /** The fields after the BOS check at the top of `observe`. */
  function Restarted(h: Fields, p: Page): Fields {
    if IsBos(p) then NO_HEADERS.(serial := Some(Serial(p))) else h
  }

  function Observe(h: Fields, p: Page): (r: Result<Fields>)
    requires h.Sane()
    ensures r.Ok? ==> r.value.Sane()
  {
    var start := Restarted(h, p);
    if start.serial != Some(Serial(p)) then Err(NoMatchingBos)
    else if start.packets == 3 then Ok(start)
    else if |start.bytes| + |p| > MAX_HEADERS then Err(HeadersTooLong)
    else
      var r := Scan(start, Segments(p));
      if r.Err? then r else Ok(r.value.(bytes := r.value.bytes + p))
  }

  /** Feeding pages one at a time; stops at the first error. */
  function ObserveAll(h: Fields, ps: seq<Page>): (r: Result<Fields>)
    requires h.Sane()
    ensures r.Ok? ==> r.value.Sane()
  {
    if ps == [] then Ok(h)
    else
      var before := ObserveAll(h, ps[..|ps| - 1]);
      if before.Err? then before else Observe(before.value, ps[|ps| - 1])
  }

  // ---- The incremental scan agrees with the reference

  /** What the fields say about the packets reassembled so far. */
  ghost predicate Tracks(h: Fields, packets: Packets) {
    && h.packets == |packets.done| <= 3
    && h.prefix == Take16(packets.partial)
    && ValidHeaders(packets.done)
    && (h.packets > 0 ==> h.rate == RateOf(packets.done[0]))
  }

  lemma Take16Append(a: seq<byte>, b: seq<byte>)
    ensures Take16(Take16(a) + b) == Take16(a + b)
  {
  }

  lemma CheckPacket(packets: nat, packet: seq<byte>, rate: nat)
    requires packets < 3
    ensures Check(packets, Take16(packet), rate).Ok? <==> ValidHeader(packets, packet)
    ensures ValidHeader(packets, packet) ==>
              Check(packets, Take16(packet), rate).value == if packets == 0 then RateOf(packet) else rate
  {
    var t := Take16(packet);
    if |packet| >= 7 { SignatureIs(t); }
    if |packet| >= 16 { RateBytes(packet); }
  }

  lemma RateBytes(packet: seq<byte>)
    requires |packet| >= 16
    ensures LittleEndian32(Take16(packet)[12..16]) == RateOf(packet)
  {
    assert Take16(packet) == packet[..16];
    assert packet[..16][12..16] == packet[12..16];
  }

  lemma SignatureIs(t: seq<byte>)
    requires |t| >= 7
    ensures t[1..7] == VORBIS <==>
            && t[1] == 'v' as int && t[2] == 'o' as int && t[3] == 'r' as int
            && t[4] == 'b' as int && t[5] == 'i' as int && t[6] == 's' as int
  {
    assert forall i :: 0 <= i < 6 ==> t[1..7][i] == t[1 + i];
  }

  lemma PacketsOnlyGrow(segments: seq<Segment>)
    requires segments != []
    ensures Reassemble(segments[..|segments| - 1]).done <= Reassemble(segments).done
  {
  }

  lemma ValidHeadersSnoc(done: seq<seq<byte>>, packet: seq<byte>)
    requires |done| <= 2 && ValidHeaders(done)
    ensures ValidHeaders(done + [packet]) <==> ValidHeader(|done|, packet)
  {
    hide ValidHeader;
    assert (done + [packet])[|done|] == packet;
    assert forall i :: 0 <= i < |done| ==> (done + [packet])[i] == done[i];
  }

  /** One more segment: accepted exactly when the packets stay well formed. */
  lemma ScanOneTracks(h: Fields, before: Packets, s: Segment)
    requires h.Sane() && Tracks(h, before)
    ensures ScanOne(h, s).Ok? <==> |before.done| <= 2 && ValidHeaders(Push(before, s).done)
    ensures ScanOne(h, s).Ok? ==> Tracks(ScanOne(h, s).value, Push(before, s))
  {
    if h.packets < 3 {
      Take16Append(before.partial, s.data);
      if s.size < 255 {
        var packet := before.partial + s.data;
        CheckPacket(h.packets, packet, h.rate);
        ValidHeadersSnoc(before.done, packet);
        hide ValidHeader, ValidHeaders, Take16, Check, RateOf;
        assert h.packets > 0 ==> (before.done + [packet])[0] == before.done[0];
      }
    }
  }

  lemma WellFormedPrefix(segments: seq<Segment>)
    requires segments != [] && WellFormedHeaders(segments)
    ensures WellFormedHeaders(segments[..|segments| - 1])
  {
    var before := segments[..|segments| - 1];
    PacketsOnlyGrow(segments);
    assert Reassemble(before).done <= Reassemble(segments).done;
    forall i | 0 <= i < |Reassemble(before).done| && i < 3
      ensures ValidHeader(i, Reassemble(before).done[i])
    {
      assert Reassemble(before).done[i] == Reassemble(segments).done[i];
    }
    if before != [] { PacketsOnlyGrow(before); }
  }

  lemma {:induction false} WellFormedTake(a: seq<Segment>, b: seq<Segment>)
    requires WellFormedHeaders(a + b)
    ensures WellFormedHeaders(a)
  {
    hide WellFormedHeaders;
    if b == [] {
      assert a + b == a;
    } else {
      WellFormedPrefix(a + b);
      assert (a + b)[..|a + b| - 1] == a + b[..|b| - 1];
      WellFormedTake(a, b[..|b| - 1]);
    }
  }

  /** Scanning on from a state that tracks `seen` decides the packets of the whole. */
  lemma {:induction false} ScanTracks(h: Fields, seen: seq<Segment>, segments: seq<Segment>)
    requires h.Sane() && Tracks(h, Reassemble(seen)) && WellFormedHeaders(seen)
    ensures Scan(h, segments).Ok? <==> WellFormedHeaders(seen + segments)
    ensures Scan(h, segments).Ok? ==> Tracks(Scan(h, segments).value, Reassemble(seen + segments))
  {
    hide Tracks, ScanOne, Push, ValidHeaders;
    if segments == [] {
      assert seen + segments == seen;
    } else {
      var before, last := segments[..|segments| - 1], segments[|segments| - 1];
      var all := seen + segments;
      assert all[..|all| - 1] == seen + before && all[|all| - 1] == last;
      ScanTracks(h, seen, before);
      if Scan(h, before).Ok? {
        ScanOneTracks(Scan(h, before).value, Reassemble(seen + before), last);
      } else if WellFormedHeaders(all) {
        WellFormedPrefix(all);
        assert false;
      }
    }
  }

  // ---- Whole streams

  lemma StreamPrefix(ps: seq<Page>)
    requires IsStream(ps) && |ps| > 1
    ensures IsStream(ps[..|ps| - 1])
    ensures Restarted(NO_HEADERS, ps[|ps| - 1]) == NO_HEADERS
    ensures Serial(ps[|ps| - 1]) == Serial(ps[0]) && !IsBos(ps[|ps| - 1])
  {
  }

  /** The pages before the third packet is complete are all header pages, and only those. */
  lemma {:induction false} HeaderPagesComplete(ps: seq<Page>)
    ensures PacketCount(ps) >= 3 ==> PacketCount(ps[..HeaderPages(ps)]) >= 3
    ensures PacketCount(ps) < 3 ==> HeaderPages(ps) == |ps|
  {
    hide Reassemble, Segments;
    if ps != [] {
      var before := ps[..|ps| - 1];
      HeaderPagesComplete(before);
      if PacketCount(before) >= 3 {
        PacketCountGrows(ps);
        assert before[..HeaderPages(before)] == ps[..HeaderPages(ps)];
      } else {
        assert ps[..|ps|] == ps;
      }
    }
  }

  lemma PacketCountGrows(ps: seq<Page>)
    requires ps != []
    ensures PacketCount(ps[..|ps| - 1]) <= PacketCount(ps)
  {
    hide Reassemble, Segments;
    CountGrows(AllSegments(ps[..|ps| - 1]), Segments(ps[|ps| - 1]));
  }

  lemma {:induction false} CountGrows(a: seq<Segment>, b: seq<Segment>)
    ensures |Reassemble(a).done| <= |Reassemble(a + b).done|
  {
    if b == [] {
      assert a + b == a;
    } else {
      CountGrows(a, b[..|b| - 1]);
      assert (a + b)[..|a + b| - 1] == a + b[..|b| - 1];
    }
  }

  /** A stream stays acceptable when its last page is dropped. */
  lemma AcceptablePrefix(ps: seq<Page>)
    requires ps != [] && Acceptable(ps)
    ensures Acceptable(ps[..|ps| - 1])
  {
    hide WellFormedHeaders, Reassemble, Segments, PacketCount;
    var before := ps[..|ps| - 1];
    if PacketCount(before) >= 3 {
      assert before[..HeaderPages(before)] == ps[..HeaderPages(ps)];
    } else {
      assert ps[..|ps|] == ps;
      HeaderPagesComplete(before);
      assert before[..|before|] == before;
      WellFormedTake(AllSegments(before), Segments(ps[|ps| - 1]));
    }
  }

  /** The fields after a whole stream, in terms of the reference. */
  ghost predicate Describes(h: Fields, ps: seq<Page>)
    requires ps != []
  {
    && h.serial == Some(Serial(ps[0]))
    && h.bytes == Concat(ps[..HeaderPages(ps)])
    && Tracks(h, Reassemble(AllSegments(ps[..HeaderPages(ps)])))
  }

  /** Page by page, the parser accepts exactly the streams the reference accepts. */
  lemma {:induction false} ObserveAllDecides(h: Fields, ps: seq<Page>)
    requires h.Sane() && IsStream(ps)
    ensures ObserveAll(h, ps).Ok? <==> Acceptable(ps)
    ensures Acceptable(ps) ==> Describes(ObserveAll(h, ps).value, ps)
  {
    hide WellFormedHeaders, Reassemble, Segments, PacketCount, Scan, IsPage;
    var before, last := ps[..|ps| - 1], ps[|ps| - 1];
    if before == [] {
      FirstPageDecides(h, last);
      assert ps == [last];
    } else {
      StreamPrefix(ps);
      ObserveAllDecides(h, before);
      if ObserveAll(h, before).Ok? {
        NextPageDecides(ObserveAll(h, before).value, ps);
      } else if Acceptable(ps) {
        AcceptablePrefix(ps);
        assert false;
      }
    }
  }

  lemma FirstPageDecides(h: Fields, p: Page)
    requires h.Sane() && IsBos(p)
    ensures ObserveAll(h, [p]).Ok? <==> Acceptable([p])
    ensures Acceptable([p]) ==> Describes(ObserveAll(h, [p]).value, [p])
  {
    hide Segments, IsPage, Tracks, Reassemble, WellFormedHeaders, PacketCount, Scan;
    var start := Restarted(h, p);
    assert [p][..1] == [p] && [p][..0] == [];
    ConcatOne(p);
    assert AllSegments([p]) == [] + Segments(p) == Segments(p);
    FreshTracks(start);
    ScanTracks(start, [], Segments(p));
    FirstHeaderPages(p);
    TracksIgnoresBytes();
  }

  lemma FreshTracks(h: Fields)
    requires h.packets == 0 && h.prefix == []
    ensures Tracks(h, Reassemble([])) && WellFormedHeaders([])
  {
  }

  lemma FirstHeaderPages(p: Page)
    ensures HeaderPages([p]) == 1
  {
    assert [p][..0] == [];
    assert AllSegments([]) == [];
  }

  lemma TracksIgnoresBytes()
    ensures forall h: Fields, b, packets :: Tracks(h, packets) ==> Tracks(h.(bytes := b), packets)
  {
  }

  lemma NextPageDecides(h: Fields, ps: seq<Page>)
    requires IsStream(ps) && |ps| > 1 && h.Sane()
    requires Acceptable(ps[..|ps| - 1]) && Describes(h, ps[..|ps| - 1])
    ensures Observe(h, ps[|ps| - 1]).Ok? <==> Acceptable(ps)
    ensures Acceptable(ps) ==> Describes(Observe(h, ps[|ps| - 1]).value, ps)
  {
    hide WellFormedHeaders, Reassemble, Segments, IsPage, Scan, Serial, IsBos, ValidHeaders;
    var before, last := ps[..|ps| - 1], ps[|ps| - 1];
    StreamPrefix(ps);
    HeaderPagesComplete(before);
    if PacketCount(before) >= 3 {
      assert before[..HeaderPages(before)] == ps[..HeaderPages(ps)];
      assert h.packets == 3;
    } else {
      assert ps[..|ps|] == ps && before[..|before|] == before;
      ConcatSnoc(before, last);
      assert ps == before + [last];
      ScanTracks(h, AllSegments(before), Segments(last));
    }
  }

  // ---- An ordinary stream

  /** At `at` stands a packet of this type with the name of the codec. */
  predicate PacketAt(p: seq<byte>, at: nat, kind: byte) {
    && at + 7 <= |p| && p[at] == kind
    && p[at + 1] == 'v' as int && p[at + 2] == 'o' as int && p[at + 3] == 'r' as int
    && p[at + 4] == 'b' as int && p[at + 5] == 'i' as int && p[at + 6] == 's' as int
  }

  /** A first page that holds one segment: the identification header. */
  predicate FirstHeaderPage(p: Page, rate: nat) {
    && p[5] == 2 && p[26] == 1 && 16 <= p[27] < 255 && PacketAt(p, 28, 1)
    && rate == p[40] as int + 0x100 * (p[41] as int) + 0x1_0000 * (p[42] as int) + 0x100_0000 * (p[43] as int)
  }

  /** A second page that holds two segments: the comment and setup headers. */
  predicate SecondHeaderPage(p: Page) {
    && p[5] == 0 && p[26] == 2 && 7 <= p[27] < 255 && 7 <= p[28] < 255
    && PacketAt(p, 29, 3) && PacketAt(p, 29 + p[27] as int, 5)
  }

  lemma OneSegment(p: Page)
    requires p[26] == 1
    ensures |p| == 28 + p[27] as int && Segments(p) == [Segment(p[27], p[28..])]
  {
    var lacing := Lacing(p);
    assert lacing == [p[27]] && lacing[..0] == [] && lacing[..1] == lacing;
    assert Sum(lacing) == p[27] as int;
    assert SegmentStart(p, 0) == 28 && SegmentStart(p, 1) == |p|;
    assert SegmentsUpTo(p, 1) == SegmentsUpTo(p, 0) + [SegmentAt(p, 0)];
    assert p[28..|p|] == p[28..];
  }

  lemma TwoSegments(p: Page)
    requires p[26] == 2
    ensures |p| == 29 + p[27] as int + p[28] as int
    ensures Segments(p) == [Segment(p[27], p[29..29 + p[27] as int]), Segment(p[28], p[29 + p[27] as int..])]
  {
    var lacing := Lacing(p);
    assert lacing == [p[27], p[28]] && lacing[..0] == [] && lacing[..1] == [p[27]] && lacing[..2] == lacing;
    assert [p[27]][..0] == [] && Sum([p[27]]) == p[27] as int;
    assert Sum(lacing) == p[27] as int + p[28] as int;
    assert SegmentStart(p, 0) == 29 && SegmentStart(p, 1) == 29 + p[27] as int && SegmentStart(p, 2) == |p|;
    assert SegmentsUpTo(p, 1) == SegmentsUpTo(p, 0) + [SegmentAt(p, 0)];
    assert SegmentsUpTo(p, 2) == SegmentsUpTo(p, 1) + [SegmentAt(p, 1)];
    assert p[29 + p[27] as int..|p|] == p[29 + p[27] as int..];
  }

  lemma PacketIsHeader(index: nat, packet: seq<byte>)
    requires index < 3 && PacketAt(packet, 0, 1 + 2 * index)
    requires index == 0 ==> |packet| >= 16 && 1 <= RateOf(packet) <= 192000
    ensures ValidHeader(index, packet)
  {
    hide RateOf;
  }

  lemma SegmentIsHeader(h: Fields, index: nat, s: Segment)
    requires h.Sane() && h.packets == index < 3 && h.prefix == [] && s.size < 255
    requires PacketAt(s.data, 0, 1 + 2 * index)
    requires index == 0 ==> |s.data| >= 16 && 1 <= RateOf(s.data) <= 192000
    ensures ScanOne(h, s) ==
            Ok(h.(packets := index + 1, prefix := [], rate := if index == 0 then RateOf(s.data) else h.rate))
  {
    hide Check, RateOf;
    assert h.prefix + s.data == s.data;
    PacketIsHeader(index, s.data);
    hide ValidHeader, PacketAt;
    CheckPacket(index, s.data, h.rate);
  }

  /**
   Main result: the headers of an ordinary stream are accepted and cached: a BOS page with the
   identification header, then a page with the comment and setup headers.
   */
  lemma OrdinaryStreamIsAccepted(h: Fields, first: Page, second: Page, rate: nat)
    requires h.Sane() && FirstHeaderPage(first, rate) && 1 <= rate <= 192000
    requires SecondHeaderPage(second) && second[14..18] == first[14..18]
    ensures ObserveAll(h, [first, second]) == Ok(Fields(Some(Serial(first)), first + second, 3, [], rate))
  {
    FirstIsObserved(h, first, rate);
    var one := Fields(Some(Serial(first)), first, 1, [], rate);
    SecondIsObserved(one, second);
    hide Observe, IsPage;
    assert [first, second][..1] == [first] && [first][..0] == [];
    assert ObserveAll(h, [first]) == Observe(h, first);
  }

  lemma FirstIsObserved(h: Fields, p: Page, rate: nat)
    requires h.Sane() && FirstHeaderPage(p, rate) && 1 <= rate <= 192000
    ensures Observe(h, p) == Ok(Fields(Some(Serial(p)), p, 1, [], rate))
  {
    OneSegment(p);
    var data := p[28..];
    var start := NO_HEADERS.(serial := Some(Serial(p)));
    assert RateOf(data) == rate;
    SegmentIsHeader(start, 0, Segment(p[27], data));
    hide ScanOne, Segments, Serial, IsPage;
    ScanSingle(start, Segment(p[27], data));
    assert [] + p == p;
  }

  lemma ScanSingle(h: Fields, s: Segment)
    requires h.Sane()
    ensures Scan(h, [s]) == ScanOne(h, s)
  {
    hide ScanOne;
    assert [s][..0] == [];
  }

  lemma SecondIsObserved(h: Fields, p: Page)
    requires h.Sane() && h.packets == 1 && h.prefix == [] && h.serial == Some(Serial(p)) && |h.bytes| <= 1000
    requires SecondHeaderPage(p)
    ensures Observe(h, p) == Ok(h.(packets := 3, bytes := h.bytes + p))
  {
    TwoSegments(p);
    var a, b := Segment(p[27], p[29..29 + p[27] as int]), Segment(p[28], p[29 + p[27] as int..]);
    var two := h.(packets := 2);
    SegmentIsHeader(h, 1, a);
    SegmentIsHeader(two, 2, b);
    hide ScanOne, Segments, Serial, IsPage;
    ScanSingle(h, a);
    assert [a, b][..1] == [a];
    assert Scan(h, [a, b]) == ScanOne(two, b);
  }

  // ---- Inputs with any number of streams

  /** Where the last logical stream of the input begins; the length when no page has the BOS flag. */
  function LastBos(ps: seq<Page>): (k: nat)
    ensures k <= |ps|
    ensures k < |ps| ==> IsBos(ps[k])
    ensures forall i :: 0 <= i < |ps| && (i > k || k == |ps|) ==> !IsBos(ps[i])
  {
    if ps == [] then 0
    else if IsBos(ps[|ps| - 1]) then |ps| - 1
    else
      var k := LastBos(ps[..|ps| - 1]);
      if k < |ps| - 1 then k else |ps|
  }

  /** The reference's verdict on any input: logical streams one after the other, each acceptable. */
  predicate ValidInput(ps: seq<Page>)
    decreases |ps|
  {
    ps == [] ||
    var k := LastBos(ps);
    k < |ps| && IsStream(ps[k..]) && Acceptable(ps[k..]) && ValidInput(ps[..k])
  }

  lemma {:induction false} ObserveAppend(h: Fields, a: seq<Page>, b: seq<Page>)
    requires h.Sane()
    ensures var first := ObserveAll(h, a);
            ObserveAll(h, a + b) == if first.Err? then first else ObserveAll(first.value, b)
  {
    hide Observe;
    if b == [] {
      assert a + b == a;
    } else {
      ObserveAppend(h, a, b[..|b| - 1]);
      assert (a + b)[..|a + b| - 1] == a + b[..|b| - 1];
    }
  }

  lemma ObserveFirst(h: Fields, ps: seq<Page>)
    requires h.Sane() && ps != []
    ensures Observe(h, ps[0]).Err? ==> ObserveAll(h, ps).Err?
  {
    hide Observe;
    assert [ps[0]][..0] == [];
    assert ObserveAll(h, [ps[0]]) == Observe(h, ps[0]);
    ObserveAppend(h, [ps[0]], ps[1..]);
    assert [ps[0]] + ps[1..] == ps;
  }

  /** Pages after a BOS page are accepted only as one stream. */
  lemma {:induction false} AcceptedIsStream(h: Fields, ps: seq<Page>)
    requires h.Sane() && ps != [] && IsBos(ps[0]) && forall i :: 1 <= i < |ps| ==> !IsBos(ps[i])
    requires ObserveAll(h, ps).Ok?
    ensures IsStream(ps) && ObserveAll(h, ps).value.serial == Some(Serial(ps[0]))
  {
    hide Scan, Segments, IsPage;
    var before := ps[..|ps| - 1];
    if before != [] {
      AcceptedIsStream(h, before);
    }
  }

  /** Main result: for every input, feeding the pages one at a time succeeds exactly when the reference accepts. */
  lemma {:induction false} InputDecides(ps: seq<Page>)
    ensures ObserveAll(NO_HEADERS, ps).Ok? <==> ValidInput(ps)
    ensures ps != [] && ValidInput(ps) ==> Describes(ObserveAll(NO_HEADERS, ps).value, ps[LastBos(ps)..])
    decreases |ps|
  {
    hide ObserveAll, Acceptable, Describes, IsPage;
    NoPages();
    if ps != [] {
      var k := LastBos(ps);
      if k == |ps| {
        ObserveFirst(NO_HEADERS, ps);
      } else {
        InputDecides(ps[..k]);
        ObserveAppend(NO_HEADERS, ps[..k], ps[k..]);
        assert ps[..k] + ps[k..] == ps;
        LastStreamDecides(ObserveAll(NO_HEADERS, ps[..k]), ps[k..]);
      }
    }
  }

  lemma NoPages()
    ensures ObserveAll(NO_HEADERS, []) == Ok(NO_HEADERS)
  {
  }

  lemma LastStreamDecides(before: Result<Fields>, ps: seq<Page>)
    requires ps != [] && IsBos(ps[0]) && forall i :: 1 <= i < |ps| ==> !IsBos(ps[i])
    requires before.Ok? ==> before.value.Sane()
    ensures before.Ok? ==> (ObserveAll(before.value, ps).Ok? <==> IsStream(ps) && Acceptable(ps))
    ensures before.Ok? && IsStream(ps) && Acceptable(ps) ==> Describes(ObserveAll(before.value, ps).value, ps)
  {
    hide ObserveAll, Acceptable, Describes, IsPage;
    if before.Ok? {
      if IsStream(ps) {
        ObserveAllDecides(before.value, ps);
      } else if ObserveAll(before.value, ps).Ok? {
        AcceptedIsStream(before.value, ps);
      }
    }
  }

  /** The parser object. An error ends the bridge, so its fields are not used afterwards. */
  class Headers {
    var serial: Option<nat>
    var bytes: seq<byte>
    var packets: nat
    var prefix: seq<byte>
    var rate: nat

    function View(): Fields reads this { Fields(serial, bytes, packets, prefix, rate) }

    constructor ()
      ensures View() == NO_HEADERS
    {
      serial, bytes, packets, prefix, rate := None, [], 0, [], 0;
    }

    method ObservePage(p: Page) returns (r: Result<()>)
      requires View().Sane()
      modifies this
      ensures r.Ok? <==> Observe(old(View()), p).Ok?
      ensures r.Ok? ==> View() == Observe(old(View()), p).value
      ensures r.Err? ==> r.error == Observe(old(View()), p).error
    {
      if IsBos(p) {
        serial, bytes, packets, prefix, rate := Some(Serial(p)), [], 0, [], 0;
      }
      if serial != Some(Serial(p)) { return Err(NoMatchingBos); }
      if packets == 3 { return Ok(()); }
      if |bytes| + |p| > MAX_HEADERS { return Err(HeadersTooLong); }
      r := ScanPage(p);
      if r.Ok? {
        bytes := bytes + p;
      }
    }

    /** The segment loop of `observe`. */
    method ScanPage(p: Page) returns (r: Result<()>)
      requires View().Sane()
      modifies this
      ensures var spec := Scan(old(View()), Segments(p));
              if r.Ok? then spec == Ok(View()) else spec == Err(r.error)
    {
      ghost var start := View();
      var n := TableSize(p);
      var offset: nat := 27 + n;
      hide *;
      ScanNothing(start, p);
      for k := 0 to n
        invariant View().Sane()
        invariant offset == SegmentStart(p, k)
        invariant Scan(start, SegmentsUpTo(p, k)) == Ok(View())
      {
        NextSegment(start, p, k, View(), offset);
        r := ScanSegment(p[27 + k], p[offset..offset + p[27 + k] as nat]);
        if r.Err? {
          ScanFails(start, p, k + 1);
          return;
        }
        offset := offset + p[27 + k];
      }
      AllScanned(p);
      r := Ok(());
    }

    /** The body of that loop, for one segment. */
    method ScanSegment(size: byte, data: seq<byte>) returns (r: Result<()>)
      requires View().Sane() && |data| == size
      modifies this
      ensures r.Ok? ==> ScanOne(old(View()), Segment(size, data)) == Ok(View())
      ensures r.Err? ==> ScanOne(old(View()), Segment(size, data)) == Err(r.error)
    {
      hide Check;
      if packets == 3 { return Err(AudioSharesPage); }
      var take := if 16 - |prefix| < size then 16 - |prefix| else size;
      assert prefix + data[..take] == Take16(prefix + data);
      prefix := prefix + data[..take];
      if size < 255 {
        var checked := Check(packets, prefix, rate);
        if checked.Err? { return Err(checked.error); }
        rate := checked.value;
        packets := packets + 1;
        prefix := [];
      }
      r := Ok(());
    }
  }

  lemma AllScanned(p: Page)
    ensures SegmentsUpTo(p, TableSize(p)) == Segments(p)
  {
  }

  lemma ScanNothing(h: Fields, p: Page)
    requires h.Sane()
    ensures Scan(h, SegmentsUpTo(p, 0)) == Ok(h) && SegmentStart(p, 0) == 27 + TableSize(p)
  {
    assert Lacing(p)[..0] == [];
  }

  /** The scan of one more segment, which lies where the running offset points. */
  lemma NextSegment(h: Fields, p: Page, k: nat, current: Fields, offset: nat)
    requires h.Sane() && current.Sane() && k < TableSize(p)
    requires Scan(h, SegmentsUpTo(p, k)) == Ok(current) && offset == SegmentStart(p, k)
    ensures 27 + TableSize(p) <= |p|
    ensures SegmentStart(p, k + 1) == offset + p[27 + k] as nat <= |p|
    ensures Scan(h, SegmentsUpTo(p, k + 1)) ==
            ScanOne(current, Segment(p[27 + k], p[offset..offset + p[27 + k] as nat]))
  {
    hide ScanOne;
    SumTake(Lacing(p), k);
    assert p[27 + k] == Lacing(p)[k];
    assert SegmentsUpTo(p, k + 1)[..k] == SegmentsUpTo(p, k);
  }

  /** Once the scan has failed it stays failed, with the same error. */
  lemma {:induction false} ScanFails(h: Fields, p: Page, k: nat)
    requires h.Sane() && k <= TableSize(p)
    requires Scan(h, SegmentsUpTo(p, k)).Err?
    ensures Scan(h, Segments(p)) == Scan(h, SegmentsUpTo(p, k))
    decreases TableSize(p) - k
  {
    if k < TableSize(p) {
      assert SegmentsUpTo(p, k + 1)[..k] == SegmentsUpTo(p, k);
      ScanFails(h, p, k + 1);
    }
  }
}
