/**
 The reader stack of the streaming-only build: a CDN producer (audio/src/fetch/streaming.rs),
 the sequential reader over its channel, CTR decryption (audio/src/decrypt.rs, section 6.5 of
 NIST SP 800-38A) and the reader that skips Spotify's own header (playback/src/player.rs).
 */
module AudioReaders {
  import opened Prelude

  const CHUNK: nat := 64 * 1024
  const SPOTIFY_HEADER: nat := 0xa7
  const SCRATCH: nat := 256

  // ---- The producer task

  datatype Message = Chunk(data: seq<byte>) | Error

  /** How the CDN answers a request: a body of at most that many bytes, or a failure. */
  datatype Answer = Serve(limit: nat) | Refuse

  function Min(a: nat, b: nat): nat { if a < b then a else b }

  /** The server honours Range: a body lies inside the file and the requested chunk. */
  function BodyLength(file: seq<byte>, offset: nat, limit: nat): (n: nat)
    requires offset <= |file|
    ensures offset + n <= |file| && n <= CHUNK
  {
    Min(limit, Min(CHUNK, |file| - offset))
  }

  /** The messages sent from request `i` on; the first response is used without looking at the offset. */
  function Messages(file: seq<byte>, answers: nat -> Answer, i: nat, offset: nat): seq<Message>
    requires offset <= |file|
    decreases |file| - offset
  {
    if i > 0 && offset >= |file| then []
    else match answers(i)
      case Refuse => [Error]
      case Serve(limit) =>
        var n := BodyLength(file, offset, limit);
        if n == 0 then [] else [Chunk(file[offset..offset + n])] + Messages(file, answers, i + 1, offset + n)
  }

  method Produce(file: seq<byte>, answers: nat -> Answer) returns (sent: seq<Message>)
    ensures sent == Messages(file, answers, 0, 0)
  {
    hide Messages, BodyLength;
    sent := [];
    var offset, i := 0, 0;
    while true
      invariant offset <= |file| && 0 <= i
      invariant Messages(file, answers, 0, 0) == sent + Messages(file, answers, i, offset)
      decreases |file| - offset
    {
      MessagesNext(file, answers, i, offset);
      if i > 0 && offset >= |file| { break; }
      var answer := answers(i);
      if answer.Refuse? {
        sent := sent + [Error];
        return;
      }
      var n := BodyLength(file, offset, answer.limit);
      if n == 0 { break; }
      Reassociate(sent, Chunk(file[offset..offset + n]), Messages(file, answers, i + 1, offset + n));
      sent := sent + [Chunk(file[offset..offset + n])];
      offset := offset + n;
      i := i + 1;
    }
  }

  lemma MessagesNext(file: seq<byte>, answers: nat -> Answer, i: nat, offset: nat)
    requires offset <= |file|
    ensures i > 0 && offset >= |file| ==> Messages(file, answers, i, offset) == []
    ensures i == 0 || offset < |file| ==>
              match answers(i)
              case Refuse => Messages(file, answers, i, offset) == [Error]
              case Serve(limit) =>
                var n := BodyLength(file, offset, limit);
                Messages(file, answers, i, offset) ==
                if n == 0 then [] else [Chunk(file[offset..offset + n])] + Messages(file, answers, i + 1, offset + n)
  {
    hide BodyLength;
  }

  lemma Reassociate(a: seq<Message>, m: Message, b: seq<Message>)
    ensures (a + [m]) + b == a + ([m] + b)
  {
  }

  /** The bytes that come before the first error or the end of the channel. */
  function Payload(ms: seq<Message>): seq<byte> {
    if ms == [] || ms[0].Error? then [] else ms[0].data + Payload(ms[1..])
  }

  /** An error is always the last message. */
  predicate ErrorLast(ms: seq<Message>) {
    forall i :: 0 <= i < |ms| - 1 ==> ms[i].Chunk?
  }

  /** Somewhere before the end of the file a request failed or brought nothing. */
  predicate CutShort(file: seq<byte>, answers: nat -> Answer, i: nat, offset: nat)
    requires offset <= |file|
    decreases |file| - offset
  {
    offset < |file| &&
    (answers(i).Refuse? || BodyLength(file, offset, answers(i).limit) == 0 ||
     CutShort(file, answers, i + 1, offset + BodyLength(file, offset, answers(i).limit)))
  }

  /** Main result: the channel carries a prefix of the file, all of it unless a request failed or was empty. */
  lemma {:induction false} PayloadIsPrefix(file: seq<byte>, answers: nat -> Answer, i: nat, offset: nat)
    requires offset <= |file|
    ensures var ms := Messages(file, answers, i, offset);
            && ErrorLast(ms) && Payload(ms) <= file[offset..]
            && (Payload(ms) == file[offset..] <==> !CutShort(file, answers, i, offset))
    decreases |file| - offset
  {
    MessagesNext(file, answers, i, offset);
    hide Messages, BodyLength;
    if !(i > 0 && offset >= |file|) && answers(i).Serve? {
      var n := BodyLength(file, offset, answers(i).limit);
      if n > 0 {
        PayloadIsPrefix(file, answers, i + 1, offset + n);
        var rest := Messages(file, answers, i + 1, offset + n);
        Joined(file, offset, n, Payload(rest));
        PayloadFirst(file[offset..offset + n], rest);
        hide Payload, ErrorLast;
        assert Messages(file, answers, i, offset) == [Chunk(file[offset..offset + n])] + rest;
      }
    }
  }

  /** Some request on the way, before the end of the file or an empty body, is refused. */
  predicate Refused(file: seq<byte>, answers: nat -> Answer, i: nat, offset: nat)
    requires offset <= |file|
    decreases |file| - offset
  {
    (i == 0 || offset < |file|) &&
    (answers(i).Refuse? ||
     (BodyLength(file, offset, answers(i).limit) > 0 &&
      Refused(file, answers, i + 1, offset + BodyLength(file, offset, answers(i).limit))))
  }

  /** Main result: an error is sent if and only if a request was refused. */
  lemma {:induction false} ErrorIsSent(file: seq<byte>, answers: nat -> Answer, i: nat, offset: nat)
    requires offset <= |file|
    ensures NoError(Messages(file, answers, i, offset)) <==> !Refused(file, answers, i, offset)
    decreases |file| - offset
  {
    MessagesNext(file, answers, i, offset);
    NoErrorCases();
    hide Messages, BodyLength, NoError;
    if (i == 0 || offset < |file|) && answers(i).Serve? {
      var n := BodyLength(file, offset, answers(i).limit);
      if n > 0 {
        ErrorIsSent(file, answers, i + 1, offset + n);
        NoErrorFirst(file[offset..offset + n], Messages(file, answers, i + 1, offset + n));
      }
    }
  }

  lemma NoErrorCases()
    ensures NoError([]) && !NoError([Error])
  {
    assert [Error][0].Error?;
  }

  lemma NoErrorFirst(data: seq<byte>, rest: seq<Message>)
    ensures NoError([Chunk(data)] + rest) <==> NoError(rest)
  {
    assert forall i :: 0 <= i < |rest| ==> ([Chunk(data)] + rest)[i + 1] == rest[i];
  }

  predicate NoError(ms: seq<Message>) { forall i :: 0 <= i < |ms| ==> ms[i].Chunk? }

  /** A file that is not cut short is sent without an error. */
  lemma {:induction false} WholeWithoutError(file: seq<byte>, answers: nat -> Answer, i: nat, offset: nat)
    requires offset <= |file| && !CutShort(file, answers, i, offset) && (i > 0 || file != [])
    requires i == 0 ==> offset == 0
    ensures NoError(Messages(file, answers, i, offset))
    decreases |file| - offset
  {
    if offset < |file| {
      WholeWithoutError(file, answers, i + 1, offset + BodyLength(file, offset, answers(i).limit));
    }
  }

  lemma PayloadFirst(data: seq<byte>, rest: seq<Message>)
    ensures Payload([Chunk(data)] + rest) == data + Payload(rest)
    ensures ErrorLast(rest) ==> ErrorLast([Chunk(data)] + rest)
  {
    assert ([Chunk(data)] + rest)[1..] == rest;
  }

  lemma Joined(file: seq<byte>, offset: nat, n: nat, rest: seq<byte>)
    requires offset + n <= |file| && rest <= file[offset + n..]
    ensures file[offset..offset + n] + rest <= file[offset..]
    ensures file[offset..offset + n] + rest == file[offset..] <==> rest == file[offset + n..]
  {
    assert file[offset..] == file[offset..offset + n] + file[offset + n..];
  }

  // ---- The readers

  datatype ReadResult = Data(bytes: seq<byte>) | Failed

  class SequentialAudio {
    var rx: seq<Message>                        // messages not received yet; then the channel is closed
    var current: Option<(seq<byte>, nat)>
    var position: nat
    ghost const all: seq<byte>                  // everything the channel will deliver
    ghost const sound: bool                     // it will deliver no error
    ghost var broken: bool                      // an error was received

    ghost function Left(): seq<byte>
      reads this
    {
      (if current.Some? && current.value.1 <= |current.value.0| then current.value.0[current.value.1..] else [])
      + Payload(rx)
    }

    ghost predicate Valid()
      reads this
    {
      && ErrorLast(rx) && (if broken then rx == [] && !sound else sound <==> NoError(rx))
      && (current.Some? ==> current.value.1 <= |current.value.0|)
      && position <= |all| && Left() == all[position..]
    }

    /** The channel is closed and everything it carried is consumed. */
    ghost predicate Exhausted() reads this { rx == [] && position == |all| }

    constructor (messages: seq<Message>)
      requires ErrorLast(messages)
      ensures Valid() && all == Payload(messages) && sound == NoError(messages)
      ensures position == 0 && rx == messages && current == None && !broken
    {
      rx, current, position, broken := messages, None, 0, false;
      all, sound := Payload(messages), NoError(messages);
    }

    method Read(n: nat) returns (r: ReadResult)
      requires Valid()
      modifies this
      ensures Valid()
      ensures r.Data? ==> |r.bytes| <= n && position == old(position) + |r.bytes|
      ensures r.Data? ==> r.bytes == all[old(position)..position]
      ensures r.Data? && |r.bytes| < n ==> Exhausted()
      ensures r.Failed? ==> Exhausted() && !sound
      ensures broken == (old(broken) || r.Failed?)
      ensures old(Exhausted()) ==> r == Data([]) && Exhausted()
    {
      var out: seq<byte> := [];
      ghost var start := position;
      while |out| < n
        invariant Valid() && |out| <= n && position == start + |out| && out == all[start..position]
        invariant old(Exhausted()) ==> Exhausted() && out == []
        invariant broken == old(broken)
        decreases n - |out|, |rx|
      {
        if current.None? || current.value.1 >= |current.value.0| {
          if rx == [] { return Data(out); }
          var ok := Receive();
          if !ok { return Failed; }
        }
        var part := Copy(n - |out|);
        out := out + part;
      }
      return Data(out);
    }

    /** `rx.recv()` when the current chunk is used up. */
    method Receive() returns (ok: bool)
      requires Valid() && rx != [] && (current.None? || current.value.1 >= |current.value.0|)
      modifies this`rx, this`current, this`broken
      ensures Valid() && rx == old(rx)[1..] && broken == !ok
      ensures ok ==> current.Some?
      ensures !ok ==> Exhausted() && !sound
    {
      var m := rx[0];
      rx := rx[1..];
      if m.Error? {
        assert Left() == [];
        broken := true;
        return false;
      }
      current := Some((m.data, 0));
      NoErrorNext(old(rx));
      ok := true;
    }

    /** Takes up to `n` bytes from the current chunk. */
    method Copy(n: nat) returns (part: seq<byte>)
      requires Valid() && current.Some?
      modifies this`current, this`position
      ensures Valid() && current.Some? && |part| <= n
      ensures position == old(position) + |part| && part == all[old(position)..position]
      ensures n > 0 && old(current).value.1 < |old(current).value.0| ==> |part| > 0
      ensures old(position) == |all| ==> part == []
    {
      hide Payload, ErrorLast, NoError;
      var (data, at) := current.value;
      var k := Min(n, |data| - at);
      part := data[at..at + k];
      TakesPart(all, position, data, at, k, Payload(rx));
      current := Some((data, at + k));
      position := position + k;
    }
  }

  lemma TakesPart(all: seq<byte>, position: nat, data: seq<byte>, at: nat, k: nat, rest: seq<byte>)
    requires position <= |all| && at + k <= |data| && data[at..] + rest == all[position..]
    ensures position + k <= |all| && data[at..at + k] == all[position..position + k]
    ensures data[at + k..] + rest == all[position + k..]
  {
    var before := all[position..];
    assert data[at..] == data[at..at + k] + data[at + k..];
    assert before == data[at..at + k] + (data[at + k..] + rest);
    assert before[..k] == all[position..position + k] && before[k..] == all[position + k..];
  }

  lemma NoErrorNext(ms: seq<Message>)
    ensures ms != [] && ms[0].Chunk? ==> (NoError(ms) <==> NoError(ms[1..]))
  {
    if ms != [] && ms[0].Chunk? {
      NoErrorFirst(ms[0].data, ms[1..]);
      assert ms == [Chunk(ms[0].data)] + ms[1..];
    }
  }

  // ---- Decryption

  /** The transformation of the byte at an absolute position; the identity for unencrypted files. */
  type Cipher = (nat, byte) -> byte

  function Apply(cipher: Cipher, from: nat, bytes: seq<byte>): (r: seq<byte>)
    ensures |r| == |bytes|
  {
    seq(|bytes|, i requires 0 <= i < |bytes| => cipher(from + i, bytes[i]))
  }

  /** Decrypting a part at its own position gives that part of the decrypted whole. */
  lemma ApplySlice(cipher: Cipher, whole: seq<byte>, from: nat, to: nat)
    requires from <= to <= |whole|
    ensures Apply(cipher, from, whole[from..to]) == Apply(cipher, 0, whole)[from..to]
  {
  }

  lemma ApplyPrefix(cipher: Cipher, a: seq<byte>, b: seq<byte>)
    requires a <= b
    ensures Apply(cipher, 0, a) <= Apply(cipher, 0, b)
  {
  }

  class AudioDecrypt {
    const cipher: Cipher
    const reader: SequentialAudio
    var cipherPosition: nat

    /** What this reader delivers in all. */
    ghost function Plain(): seq<byte> { Apply(cipher, 0, reader.all) }

    /** The cipher is where the reader is, except after a failure that lost its bytes. */
    ghost predicate Valid()
      reads this, reader
    {
      reader.Valid() && (cipherPosition == reader.position || reader.Exhausted())
    }

    constructor (cipher: Cipher, reader: SequentialAudio)
      requires reader.Valid() && reader.position == 0
      ensures Valid() && this.cipher == cipher && this.reader == reader
    {
      this.cipher, this.reader, cipherPosition := cipher, reader, 0;
    }

    method Read(n: nat) returns (r: ReadResult)
      requires Valid()
      modifies this, reader
      ensures Valid()
      ensures r.Data? ==> |r.bytes| <= n && reader.position == old(reader.position) + |r.bytes|
      ensures r.Data? ==> r.bytes == Plain()[old(reader.position)..reader.position]
      ensures r.Data? && |r.bytes| < n ==> reader.Exhausted()
      ensures r.Failed? ==> reader.Exhausted() && !reader.sound
      ensures reader.broken == (old(reader.broken) || r.Failed?)
      ensures old(reader.Exhausted()) ==> r == Data([]) && reader.Exhausted()
    {
      r := reader.Read(n);
      if r.Data? {
        ghost var from := old(reader.position);
        ApplySlice(cipher, reader.all, from, reader.position);
        var plain := Apply(cipher, cipherPosition, r.bytes);
        assert r.bytes == [] ==> plain == [];
        cipherPosition := cipherPosition + |plain|;
        r := Data(plain);
      }
    }
  }

  // ---- Skipping the header

  class SkipReader {
    const inner: AudioDecrypt
    var remaining: nat
    ghost const skip: nat             // how much is skipped in all
    ghost var emitted: seq<byte>      // what successful reads have returned
    ghost var failed: bool            // some read has failed

    /** What this reader should deliver. */
    ghost function Audio(): seq<byte> {
      if skip <= |inner.Plain()| then inner.Plain()[skip..] else []
    }

    ghost predicate Valid()
      reads this, inner, inner.reader
    {
      && inner.Valid() && remaining <= skip && emitted <= Audio()
      && (failed ==> inner.reader.Exhausted() && !inner.reader.sound) && failed == inner.reader.broken
      && (!failed ==> inner.reader.position == skip - remaining + |emitted| && (remaining > 0 ==> emitted == []))
    }

    constructor (inner: AudioDecrypt, skip: nat)
      requires inner.Valid() && inner.reader.position == 0 && !inner.reader.broken
      ensures Valid() && emitted == [] && !failed && this.inner == inner && this.skip == skip
    {
      this.inner, this.skip, remaining, emitted, failed := inner, skip, skip, [], false;
    }

    /** Each successful read goes on where the last one ended; a short one without any failure is the end. */
    method Read(n: nat) returns (r: ReadResult)
      requires Valid()
      modifies this, inner, inner.reader
      ensures Valid()
      ensures emitted == old(emitted) + (if r.Data? then r.bytes else [])
      ensures failed == (old(failed) || r.Failed?)
      ensures r.Data? ==> |r.bytes| <= n
      ensures r.Data? && |r.bytes| < n && !failed ==> emitted == Audio() && inner.reader.Exhausted()
    {
      hide Apply;
      r := SkipHeader();
      if r.Data? && remaining == 0 {
        r := PassOn(n);
      }
    }

    /** A read once the header is behind. */
    method PassOn(n: nat) returns (r: ReadResult)
      requires Valid() && remaining == 0
      modifies this, inner, inner.reader
      ensures Valid() && remaining == 0
      ensures emitted == old(emitted) + (if r.Data? then r.bytes else [])
      ensures failed == (old(failed) || r.Failed?)
      ensures r.Data? ==> |r.bytes| <= n
      ensures r.Data? && |r.bytes| < n ==> inner.reader.Exhausted()
    {
      hide Apply;
      r := inner.Read(n);
      if r.Failed? {
        failed := true;
      } else {
        if failed {
          assert emitted + [] == emitted;
        } else {
          Goes(inner.Plain(), skip, emitted, r.bytes);
        }
        emitted := emitted + r.bytes;
      }
    }

    /** The skipping loop: ends with nothing left to skip, at the end of the input, or failed. */
    method SkipHeader() returns (r: ReadResult)
      requires Valid()
      modifies this, inner, inner.reader
      ensures Valid() && emitted == old(emitted) && (r.Data? ==> r.bytes == [])
      ensures failed == (old(failed) || r.Failed?)
      ensures r.Data? && remaining > 0 ==> inner.reader.Exhausted()
    {
      while remaining > 0
        invariant Valid() && emitted == old(emitted) && failed == old(failed)
      {
        var limit := Min(remaining, SCRATCH);
        r := inner.Read(limit);
        if r.Failed? {
          failed := true;
          return;
        }
        if |r.bytes| == 0 { return; }
        remaining := remaining - |r.bytes|;
      }
      r := Data([]);
    }
  }

  /** A further part of the decrypted file continues what was emitted. */
  lemma Goes(plain: seq<byte>, skip: nat, emitted: seq<byte>, more: seq<byte>)
    requires skip + |emitted| + |more| <= |plain|
    requires emitted <= plain[skip..] && more == plain[skip + |emitted|..skip + |emitted| + |more|]
    ensures emitted + more <= plain[skip..]
  {
  }

  function Total(sizes: seq<nat>): nat {
    if sizes == [] then 0 else Total(sizes[..|sizes| - 1]) + sizes[|sizes| - 1]
  }

  lemma TotalNothing()
    ensures Total([]) == 0
  {
  }

  lemma TotalNext(sizes: seq<nat>, i: nat)
    requires i < |sizes|
    ensures Total(sizes[..i + 1]) == Total(sizes[..i]) + sizes[i]
  {
    assert sizes[..i + 1][..i] == sizes[..i];
  }

  lemma {:induction false} TotalGrows(sizes: seq<nat>, k: nat)
    requires k <= |sizes|
    ensures Total(sizes[..k]) <= Total(sizes)
  {
    if k == |sizes| {
      assert sizes[..k] == sizes;
    } else {
      TotalGrows(sizes[..|sizes| - 1], k);
      assert sizes[..|sizes| - 1][..k] == sizes[..k];
    }
  }

  /** Any consumer: reads with buffers of any sizes until an empty read, a failure or no more buffers. */
  method ReadWith(source: SkipReader, sizes: seq<nat>) returns (out: seq<byte>, complete: bool)
    requires source.Valid() && source.emitted == [] && !source.failed
    modifies source, source.inner, source.inner.reader
    ensures out <= source.Audio()
    ensures complete ==> out == source.Audio() && source.inner.reader.sound
    ensures source.inner.reader.sound ==> |out| == Min(Total(sizes), |source.Audio()|)
  {
    hide Apply, Total;
    TotalNothing();
    out, complete := [], false;
    for i := 0 to |sizes|
      invariant source.Valid() && !source.failed && out == source.emitted
      invariant |out| == Min(Total(sizes[..i]), |source.Audio()|)
    {
      TotalNext(sizes, i);
      var r := source.Read(sizes[i]);
      if r.Failed? { return; }
      out := out + r.bytes;
      if |r.bytes| == 0 && sizes[i] > 0 {
        TotalGrows(sizes, i + 1);
        return out, true;
      }
    }
    assert sizes[..|sizes|] == sizes;
  }

  /** `file` decrypted, without Spotify's header. */
  function AudioOf(cipher: Cipher, file: seq<byte>): seq<byte> {
    if 0xa7 <= |file| then Apply(cipher, 0, file)[0xa7..] else []
  }

  /** Main result: whatever the CDN answers and whatever the buffers, the stack delivers the audio in order. */
  method StreamAudio(file: seq<byte>, answers: nat -> Answer, cipher: Cipher, sizes: seq<nat>)
    returns (out: seq<byte>, complete: bool)
    ensures out <= AudioOf(cipher, file)
    ensures complete && !CutShort(file, answers, 0, 0) ==> out == AudioOf(cipher, file)
    ensures complete ==> !Refused(file, answers, 0, 0)
    ensures !CutShort(file, answers, 0, 0) ==> |out| == Min(Total(sizes), |AudioOf(cipher, file)|)
  {
    hide Apply;
    var messages := Produce(file, answers);
    PayloadIsPrefix(file, answers, 0, 0);
    ErrorIsSent(file, answers, 0, 0);
    assert file[0..] == file;
    if file != [] && !CutShort(file, answers, 0, 0) { WholeWithoutError(file, answers, 0, 0); }
    var reader := new SequentialAudio(messages);
    var decrypt := new AudioDecrypt(cipher, reader);
    var source := new SkipReader(decrypt, SPOTIFY_HEADER);
    out, complete := ReadWith(source, sizes);
    AudioOfPrefix(cipher, reader.all, file);
  }

  lemma AudioOfPrefix(cipher: Cipher, a: seq<byte>, b: seq<byte>)
    requires a <= b
    ensures AudioOf(cipher, a) <= AudioOf(cipher, b)
  {
    ApplyPrefix(cipher, a, b);
  }
}
