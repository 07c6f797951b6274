/**
 The packet codec of an access-point connection (core/src/connection/codec.rs).

 A packet is a command byte, a 16-bit big-endian length and a payload, encrypted under a
 per-packet nonce and followed by a 4-byte MAC. The cipher is any stream machine whose
 decryption undoes its encryption byte by byte.
 */
module ApCodec {
  import opened Prelude
  import opened Sequences

  const HEADER_SIZE: nat := 3
  const MAC_SIZE: nat := 4
  const MAX_PAYLOAD: nat := 0xFFFF
  const MAX_NONCE: nat := 0xFFFF_FFFF

  /** A keyed stream cipher: `start` takes the nonce, `mac` closes a packet. */
  datatype Cipher<!S> =
    Cipher(start: nat -> S, enc: (S, byte) -> (S, byte), dec: (S, byte) -> (S, byte), mac: S -> seq<byte>)

  ghost predicate Lawful<S(!new)>(c: Cipher<S>) {
    && (forall s, b: byte :: c.dec(s, c.enc(s, b).1) == (c.enc(s, b).0, b))
    && (forall s :: |c.mac(s)| == MAC_SIZE)
  }

  datatype Packet = Packet(cmd: byte, payload: seq<byte>)

  // ---- Whole byte strings through the cipher

  function Encrypt<S>(c: Cipher<S>, s: S, bytes: seq<byte>): (r: (S, seq<byte>))
    ensures |r.1| == |bytes|
  {
    if bytes == [] then (s, [])
    else
      var (s1, out) := Encrypt(c, s, bytes[..|bytes| - 1]);
      var (s2, b) := c.enc(s1, bytes[|bytes| - 1]);
      (s2, out + [b])
  }

  function Decrypt<S>(c: Cipher<S>, s: S, bytes: seq<byte>): (r: (S, seq<byte>))
    ensures |r.1| == |bytes|
  {
    if bytes == [] then (s, [])
    else
      var (s1, out) := Decrypt(c, s, bytes[..|bytes| - 1]);
      var (s2, b) := c.dec(s1, bytes[|bytes| - 1]);
      (s2, out + [b])
  }

  lemma {:induction false} EncryptAppend<S>(c: Cipher<S>, s: S, a: seq<byte>, b: seq<byte>)
    ensures var (s1, x) := Encrypt(c, s, a);
            var (s2, y) := Encrypt(c, s1, b);
            Encrypt(c, s, a + b) == (s2, x + y)
  {
    if b == [] {
      assert a + b == a;
      assert Encrypt(c, s, a).1 + [] == Encrypt(c, s, a).1;
    } else {
      EncryptAppend(c, s, a, b[..|b| - 1]);
      assert (a + b)[..|a + b| - 1] == a + b[..|b| - 1];
      var x := Encrypt(c, s, a);
      var y := Encrypt(c, x.0, b[..|b| - 1]).1;
      var last := [c.enc(Encrypt(c, x.0, b[..|b| - 1]).0, b[|b| - 1]).1];
      assert (x.1 + y) + last == x.1 + (y + last);
    }
  }

  lemma {:induction false} DecryptInverts<S(!new)>(c: Cipher<S>, s: S, bytes: seq<byte>)
    requires Lawful(c)
    ensures Decrypt(c, s, Encrypt(c, s, bytes).1) == (Encrypt(c, s, bytes).0, bytes)
  {
    if bytes != [] {
      var n := |bytes| - 1;
      DecryptInverts(c, s, bytes[..n]);
      var out := Encrypt(c, s, bytes).1;
      assert out[..n] == Encrypt(c, s, bytes[..n]).1;
      assert bytes[..n] + [bytes[n]] == bytes;
    }
  }

  /** One byte at a time: with `EncryptAppend`, this is all there is to encryption. */
  lemma EncryptOne<S>(c: Cipher<S>, s: S, b: byte)
    ensures Encrypt(c, s, [b]) == (c.enc(s, b).0, [c.enc(s, b).1])
    ensures Decrypt(c, s, [b]) == (c.dec(s, b).0, [c.dec(s, b).1])
  {
    assert [b][..0] == [];
    assert [] + [c.enc(s, b).1] == [c.enc(s, b).1] && [] + [c.dec(s, b).1] == [c.dec(s, b).1];
  }

  // ---- Encoder

  function Header(p: Packet): (h: seq<byte>)
    ensures |h| == HEADER_SIZE
  {
    [p.cmd, |p.payload| / 256 % 256, |p.payload| % 256]
  }

  function Encode<S>(c: Cipher<S>, nonce: nat, p: Packet): seq<byte> {
    var (s, out) := Encrypt(c, c.start(nonce), Header(p) + p.payload);
    out + c.mac(s)
  }

  /** The packets of one connection, from nonce `nonce` on. */
  function EncodeAll<S>(c: Cipher<S>, nonce: nat, ps: seq<Packet>): seq<byte>
    decreases |ps|
  {
    if ps == [] then [] else Encode(c, nonce, ps[0]) + EncodeAll(c, nonce + 1, ps[1..])
  }

  // ---- Decoder

  datatype Mode = AtHeader | AtPayload(cmd: byte, size: nat)

  datatype Decoder<!S> = Decoder(nonce: nat, state: S, mode: Mode)

  datatype Reply = NeedMore | Got(packet: Packet) | BadMac

  function ReadHeader<S>(c: Cipher<S>, d: Decoder<S>, buf: seq<byte>): (Decoder<S>, seq<byte>) {
    if d.mode.AtHeader? && |buf| >= HEADER_SIZE then
      var (s, h) := Decrypt(c, c.start(d.nonce), buf[..HEADER_SIZE]);
      (Decoder(d.nonce + 1, s, AtPayload(h[0], 256 * (h[1] as int) + h[2] as int)), buf[HEADER_SIZE..])
    else (d, buf)
  }

  function ReadPayload<S>(c: Cipher<S>, d: Decoder<S>, buf: seq<byte>): (Reply, Decoder<S>, seq<byte>) {
    if d.mode.AtPayload? && |buf| >= d.mode.size + MAC_SIZE then
      var (s, payload) := Decrypt(c, d.state, buf[..d.mode.size]);
      var next := Decoder(d.nonce, s, AtHeader);
      var rest := buf[d.mode.size + MAC_SIZE..];
      if buf[d.mode.size..d.mode.size + MAC_SIZE] == c.mac(s) then (Got(Packet(d.mode.cmd, payload)), next, rest)
      else (BadMac, next, rest)
    else (NeedMore, d, buf)
  }

  /** One call of `decode`. */
  function Decode<S>(c: Cipher<S>, d: Decoder<S>, buf: seq<byte>): (r: (Reply, Decoder<S>, seq<byte>))
    ensures r.0.Got? ==> |r.2| < |buf|
  {
    var (d1, buf1) := ReadHeader(c, d, buf);
    ReadPayload(c, d1, buf1)
  }

  datatype Progress<!S> = Progress(out: seq<Packet>, ok: bool, decoder: Decoder<S>, left: seq<byte>)

  /** The framed reader calls `decode` until it wants more bytes or fails. */
  function Drain<S>(c: Cipher<S>, d: Decoder<S>, buf: seq<byte>): Progress<S>
    decreases |buf|
  {
    var (r, d1, buf1) := Decode(c, d, buf);
    match r
    case NeedMore => Progress([], true, d1, buf1)
    case BadMac => Progress([], false, d1, buf1)
    case Got(p) => var more := Drain(c, d1, buf1); more.(out := [p] + more.out)
  }

  /** Bytes arrive in chunks; after an error nothing more is read. */
  function Feed<S>(c: Cipher<S>, p: Progress<S>, chunk: seq<byte>): Progress<S> {
    if !p.ok then p
    else var more := Drain(c, p.decoder, p.left + chunk); more.(out := p.out + more.out)
  }

  function FeedAll<S>(c: Cipher<S>, d: Decoder<S>, chunks: seq<seq<byte>>): Progress<S> {
    if chunks == [] then Progress([], true, d, [])
    else Feed(c, FeedAll(c, d, chunks[..|chunks| - 1]), chunks[|chunks| - 1])
  }

  // ---- Chunks do not matter

  lemma DecodeMore<S>(c: Cipher<S>, d: Decoder<S>, buf: seq<byte>, x: seq<byte>)
    ensures var (r, d1, buf1) := Decode(c, d, buf);
            Decode(c, d, buf + x) == if r.NeedMore? then Decode(c, d1, buf1 + x) else (r, d1, buf1 + x)
  {
    hide Decrypt;
    if d.mode.AtHeader? && |buf| >= HEADER_SIZE {
      assert (buf + x)[..HEADER_SIZE] == buf[..HEADER_SIZE];
      assert (buf + x)[HEADER_SIZE..] == buf[HEADER_SIZE..] + x;
    }
    var (d1, buf1) := ReadHeader(c, d, buf);
    if d1.mode.AtPayload? && |buf1| >= d1.mode.size + MAC_SIZE {
      var n := d1.mode.size;
      assert (buf1 + x)[..n] == buf1[..n];
      assert (buf1 + x)[n..n + MAC_SIZE] == buf1[n..n + MAC_SIZE];
      assert (buf1 + x)[n + MAC_SIZE..] == buf1[n + MAC_SIZE..] + x;
    }
  }

  /** Draining early and going on later gives the same as draining once. */
  lemma {:induction false} DrainMore<S>(c: Cipher<S>, d: Decoder<S>, buf: seq<byte>, x: seq<byte>)
    ensures var before := Drain(c, d, buf);
            var after := Drain(c, d, buf + x);
            if before.ok then after == Feed(c, before, x)
            else after.out == before.out && !after.ok
    decreases |buf|
  {
    hide Decode;
    DecodeMore(c, d, buf, x);
    DecodeShrinks(c, d, buf);
    var (r, d1, buf1) := Decode(c, d, buf);
    if r.Got? {
      DrainMore(c, d1, buf1, x);
    } else if r.NeedMore? {
      var more := Drain(c, d1, buf1 + x);
      assert [] + more.out == more.out;
    }
  }

  lemma DecodeShrinks<S>(c: Cipher<S>, d: Decoder<S>, buf: seq<byte>)
    ensures Decode(c, d, buf).0.Got? ==> |Decode(c, d, buf).2| < |buf|
  {
  }

  /** Main result: the packets do not depend on how the bytes were cut into chunks. */
  lemma {:induction false} ChunksDoNotMatter<S>(c: Cipher<S>, d: Decoder<S>, chunks: seq<seq<byte>>)
    requires d.mode.AtHeader?
    ensures var whole := Drain(c, d, Concat(chunks));
            var fed := FeedAll(c, d, chunks);
            fed.out == whole.out && fed.ok == whole.ok && (fed.ok ==> fed == whole)
  {
    hide Decode;
    if chunks == [] {
      NothingToDecode(c, d);
    } else {
      var before := chunks[..|chunks| - 1];
      ChunksDoNotMatter(c, d, before);
      DrainMore(c, d, Concat(before), chunks[|chunks| - 1]);
    }
  }

  lemma NothingToDecode<S>(c: Cipher<S>, d: Decoder<S>)
    requires d.mode.AtHeader?
    ensures Drain(c, d, []) == Progress([], true, d, [])
  {
  }

  // ---- Decoding undoes encoding

  predicate Fits(ps: seq<Packet>) { forall i :: 0 <= i < |ps| ==> |ps[i].payload| <= 65535 }

  function SizeField(p: Packet): nat { |p.payload| % 65536 }

  lemma SizeFromBytes(n: nat)
    ensures 256 * (n / 256 % 256) + n % 256 == n % 65536
  {
  }

  /** The decoder after the header of an encoded packet. */
  lemma HeaderDecodes<S(!new)>(c: Cipher<S>, d: Decoder<S>, p: Packet, rest: seq<byte>)
    requires Lawful(c) && d.mode.AtHeader?
    ensures var (s, _) := Encrypt(c, c.start(d.nonce), Header(p));
            var (s2, body) := Encrypt(c, s, p.payload);
            ReadHeader(c, d, Encode(c, d.nonce, p) + rest) ==
              (Decoder(d.nonce + 1, s, AtPayload(p.cmd, SizeField(p))), body + c.mac(s2) + rest)
  {
    hide Encrypt, Decrypt;
    var s0 := c.start(d.nonce);
    var (s, head) := Encrypt(c, s0, Header(p));
    var (s2, body) := Encrypt(c, s, p.payload);
    EncryptAppend(c, s0, Header(p), p.payload);
    DecryptInverts(c, s0, Header(p));
    SizeFromBytes(|p.payload|);
    var buf := Encode(c, d.nonce, p) + rest;
    assert buf == head + (body + c.mac(s2) + rest);
    assert buf[..HEADER_SIZE] == head;
    assert buf[HEADER_SIZE..] == body + c.mac(s2) + rest;
  }

  /** An encoded packet is decoded back, and the nonces move on together. */
  lemma PacketDecodes<S(!new)>(c: Cipher<S>, d: Decoder<S>, p: Packet, rest: seq<byte>)
    requires Lawful(c) && d.mode.AtHeader? && |p.payload| <= MAX_PAYLOAD
    ensures var (r, d1, left) := Decode(c, d, Encode(c, d.nonce, p) + rest);
            r == Got(p) && d1.nonce == d.nonce + 1 && d1.mode.AtHeader? && left == rest
  {
    HeaderDecodes(c, d, p, rest);
    hide Encrypt, Decrypt, ReadHeader, Encode;
    var (s, _) := Encrypt(c, c.start(d.nonce), Header(p));
    var (s2, body) := Encrypt(c, s, p.payload);
    DecryptInverts(c, s, p.payload);
    var buf := body + c.mac(s2) + rest;
    var n := |p.payload|;
    assert SizeField(p) == n;
    assert buf[..n] == body && buf[n..n + MAC_SIZE] == c.mac(s2) && buf[n + MAC_SIZE..] == rest;
  }

  lemma {:induction false} StreamDecodes<S(!new)>(c: Cipher<S>, d: Decoder<S>, ps: seq<Packet>)
    requires Lawful(c) && d.mode.AtHeader? && Fits(ps)
    ensures var r := Drain(c, d, EncodeAll(c, d.nonce, ps));
            r.ok && r.out == ps && r.left == [] && r.decoder.nonce == d.nonce + |ps| && r.decoder.mode.AtHeader?
    decreases |ps|
  {
    hide Decode, Encode;
    if ps == [] {
      NothingToDecode(c, d);
    } else {
      var rest := EncodeAll(c, d.nonce + 1, ps[1..]);
      PacketDecodes(c, d, ps[0], rest);
      var d1 := Decode(c, d, EncodeAll(c, d.nonce, ps)).1;
      StreamDecodes(c, d1, ps[1..]);
      assert [ps[0]] + ps[1..] == ps;
    }
  }

  /** What a packet looks like under its own nonce: command, big-endian length, payload, then the MAC. */
  lemma PacketLayout<S(!new)>(c: Cipher<S>, nonce: nat, p: Packet)
    requires Lawful(c)
    ensures var e, n := Encode(c, nonce, p), |p.payload|;
            && |e| == n + 7
            && var (s, plain) := Decrypt(c, c.start(nonce), e[..3 + n]);
               plain == [p.cmd, n / 256 % 256, n % 256] + p.payload && e[3 + n..] == c.mac(s)
  {
    hide Encrypt, Decrypt;
    var plain := Header(p) + p.payload;
    var (s, out) := Encrypt(c, c.start(nonce), plain);
    DecryptInverts(c, c.start(nonce), plain);
    var e := Encode(c, nonce, p);
    assert e[..3 + |p.payload|] == out && e[3 + |p.payload|..] == c.mac(s);
  }

  /** Each packet of a connection is encoded under the next nonce. */
  lemma {:induction false} NoncesCount<S>(c: Cipher<S>, nonce: nat, a: seq<Packet>, b: seq<Packet>)
    ensures EncodeAll(c, nonce, a + b) == EncodeAll(c, nonce, a) + EncodeAll(c, nonce + |a|, b)
    ensures |b| == 1 ==> EncodeAll(c, nonce, a + b) == EncodeAll(c, nonce, a) + Encode(c, nonce + |a|, b[0])
    decreases |a|
  {
    hide Encode;
    OnePacket(c, nonce + |a|, b);
    if a == [] {
      assert a + b == b;
    } else {
      NoncesCount(c, nonce + 1, a[1..], b);
      assert (a + b)[0] == a[0] && (a + b)[1..] == a[1..] + b;
      var first, middle := Encode(c, nonce, a[0]), EncodeAll(c, nonce + 1, a[1..]);
      assert first + (middle + EncodeAll(c, nonce + |a|, b)) == (first + middle) + EncodeAll(c, nonce + |a|, b);
    }
  }

  lemma OnePacket<S>(c: Cipher<S>, nonce: nat, b: seq<Packet>)
    ensures |b| == 1 ==> EncodeAll(c, nonce, b) == Encode(c, nonce, b[0])
  {
    hide Encode;
    if |b| == 1 {
      assert b[1..] == [];
      assert Encode(c, nonce, b[0]) + [] == Encode(c, nonce, b[0]);
    }
  }

  /** Main result: a packet is accepted with its own MAC, and rejected with any other. */
  lemma MacDecides<S(!new)>(c: Cipher<S>, d: Decoder<S>, p: Packet, mac: seq<byte>, rest: seq<byte>)
    requires Lawful(c) && d.mode.AtHeader? && |p.payload| <= 65535 && |mac| == 4
    ensures var e, n := Encode(c, d.nonce, p), |p.payload|;
            && |e| == n + 7
            && Decode(c, d, e[..3 + n] + mac + rest).0 == (if mac == e[3 + n..] then Got(p) else BadMac)
            && Decode(c, d, e[..3 + n] + mac + rest).2 == rest
  {
    var e, n := Encode(c, d.nonce, p), |p.payload|;
    PacketLayout(c, d.nonce, p);
    var (s, _) := Encrypt(c, c.start(d.nonce), Header(p));
    var (s2, body) := Encrypt(c, s, p.payload);
    HeaderReads(c, d, p, mac + rest);
    EncryptAppend(c, c.start(d.nonce), Header(p), p.payload);
    DecryptInverts(c, s, p.payload);
    hide Encrypt, Decrypt, ReadHeader;
    assert e[3 + n..] == c.mac(s2);
    var buf := body + mac + rest;
    assert e[..3 + n] + mac + rest == e[..3 + n] + (mac + rest);
    assert body + (mac + rest) == buf;
    assert buf[..n] == body && buf[n..n + MAC_SIZE] == mac && buf[n + MAC_SIZE..] == rest;
  }

  /** The decoder after the header of a packet, whatever follows the payload. */
  lemma HeaderReads<S(!new)>(c: Cipher<S>, d: Decoder<S>, p: Packet, rest: seq<byte>)
    requires Lawful(c) && d.mode.AtHeader? && |p.payload| <= 65535
    ensures var (s, _) := Encrypt(c, c.start(d.nonce), Header(p));
            var (_, body) := Encrypt(c, s, p.payload);
            && |Encode(c, d.nonce, p)| == |p.payload| + 7
            && ReadHeader(c, d, Encode(c, d.nonce, p)[..3 + |p.payload|] + rest) ==
                 (Decoder(d.nonce + 1, s, AtPayload(p.cmd, |p.payload|)), body + rest)
  {
    hide Encrypt, Decrypt;
    var s0 := c.start(d.nonce);
    var (s, head) := Encrypt(c, s0, Header(p));
    var (s2, body) := Encrypt(c, s, p.payload);
    EncryptAppend(c, s0, Header(p), p.payload);
    DecryptInverts(c, s0, Header(p));
    SizeFromBytes(|p.payload|);
    var buf := Encode(c, d.nonce, p)[..3 + |p.payload|] + rest;
    assert Encode(c, d.nonce, p)[..3 + |p.payload|] == head + body;
    assert buf == head + (body + rest);
    assert buf[..HEADER_SIZE] == head && buf[HEADER_SIZE..] == body + rest;
  }

  /** Too few bytes for a header are left alone. */
  lemma ShortIsKept<S>(c: Cipher<S>, d: Decoder<S>, buf: seq<byte>)
    requires d.mode.AtHeader? && |buf| < 3
    ensures Decode(c, d, buf) == (NeedMore, d, buf)
  {
  }

  /** A payload that does not fit its length field is not what the decoder reads. */
  lemma OversizedIsCut<S(!new)>(c: Cipher<S>, d: Decoder<S>, p: Packet, rest: seq<byte>)
    requires Lawful(c) && d.mode.AtHeader? && |p.payload| > MAX_PAYLOAD
    ensures Decode(c, d, Encode(c, d.nonce, p) + rest).0 != Got(p)
  {
    HeaderDecodes(c, d, p, rest);
    hide Encrypt, ReadHeader, Encode;
  }

  lemma {:induction false} OversizedIsLost<S(!new)>(c: Cipher<S>, d: Decoder<S>, ps: seq<Packet>)
    requires Lawful(c) && d.mode.AtHeader? && !Fits(ps)
    ensures Drain(c, d, EncodeAll(c, d.nonce, ps)).out != ps
    decreases |ps|
  {
    hide Decode, Encode;
    var rest := EncodeAll(c, d.nonce + 1, ps[1..]);
    if |ps[0].payload| > MAX_PAYLOAD {
      OversizedIsCut(c, d, ps[0], rest);
    } else {
      PacketDecodes(c, d, ps[0], rest);
      assert !Fits(ps[1..]) by {
        var i :| 0 <= i < |ps| && |ps[i].payload| > MAX_PAYLOAD;
        assert ps[1..][i - 1] == ps[i];
      }
      var d1 := Decode(c, d, EncodeAll(c, d.nonce, ps)).1;
      OversizedIsLost(c, d1, ps[1..]);
    }
  }

  /**
   Main result: whatever the chunks, decoding yields the packets that were sent exactly when
   every payload fits the 16-bit length; both nonces have then advanced by the packet count.
   */
  lemma ConnectionRoundTrip<S(!new)>(c: Cipher<S>, s: S, ps: seq<Packet>, chunks: seq<seq<byte>>)
    requires Lawful(c) && Concat(chunks) == EncodeAll(c, 0, ps)
    ensures var r := FeedAll(c, Decoder(0, s, AtHeader), chunks);
            && (r.out == ps <==> Fits(ps))
            && (Fits(ps) ==> r.ok && r.left == [] && r.decoder.nonce == |ps|)
  {
    hide Drain, FeedAll, EncodeAll;
    var d := Decoder(0, s, AtHeader);
    ChunksDoNotMatter(c, d, chunks);
    if Fits(ps) { StreamDecodes(c, d, ps); } else { OversizedIsLost(c, d, ps); }
  }

  /** The codec object of one connection. Its nonces are 32-bit counters. */
  class Codec<S> {
    const encodeCipher: Cipher<S>
    const decodeCipher: Cipher<S>
    var encodeNonce: nat
    var decodeNonce: nat
    var decodeState: S
    var mode: Mode

    function View(): Decoder<S> reads this { Decoder(decodeNonce, decodeState, mode) }

    constructor (send: Cipher<S>, receive: Cipher<S>, idle: S)
      ensures encodeNonce == 0 && View() == Decoder(0, idle, AtHeader)
      ensures encodeCipher == send && decodeCipher == receive
    {
      encodeCipher, decodeCipher := send, receive;
      encodeNonce, decodeNonce, decodeState, mode := 0, 0, idle, AtHeader;
    }

    method EncodePacket(p: Packet, buf: seq<byte>) returns (out: seq<byte>)
      requires encodeNonce < MAX_NONCE
      modifies this`encodeNonce
      ensures out == buf + Encode(encodeCipher, old(encodeNonce), p)
      ensures encodeNonce == old(encodeNonce) + 1 <= MAX_NONCE
    {
      var plain: seq<byte> := [p.cmd] + [|p.payload| / 256 % 256, |p.payload| % 256] + p.payload;
      assert plain == Header(p) + p.payload;
      var state := encodeCipher.start(encodeNonce);
      encodeNonce := encodeNonce + 1;
      var (closed, text) := Encrypt(encodeCipher, state, plain);
      out := buf + text;
      out := out + encodeCipher.mac(closed);
    }

    method DecodePacket(buf: seq<byte>) returns (r: Reply, left: seq<byte>)
      requires decodeNonce <= MAX_NONCE
      requires mode.AtHeader? && |buf| >= HEADER_SIZE ==> decodeNonce < MAX_NONCE
      modifies this`decodeNonce, this`decodeState, this`mode
      ensures (r, View(), left) == Decode(decodeCipher, old(View()), buf)
      ensures decodeNonce <= MAX_NONCE
    {
      left := buf;
      if mode.AtHeader? {
        if |left| >= HEADER_SIZE {
          var (state, header) := Decrypt(decodeCipher, decodeCipher.start(decodeNonce), left[..HEADER_SIZE]);
          left := left[HEADER_SIZE..];
          decodeNonce := decodeNonce + 1;
          decodeState := state;
          mode := AtPayload(header[0], 256 * (header[1] as int) + header[2] as int);
        }
      }
      if mode.AtPayload? {
        var cmd, size := mode.cmd, mode.size;
        if |left| >= size + MAC_SIZE {
          mode := AtHeader;
          var (state, payload) := Decrypt(decodeCipher, decodeState, left[..size]);
          decodeState := state;
          var mac := left[size..size + MAC_SIZE];
          left := left[size + MAC_SIZE..];
          if mac != decodeCipher.mac(state) { return BadMac, left; }
          return Got(Packet(cmd, payload)), left;
        }
      }
      r := NeedMore;
    }
  }
}
