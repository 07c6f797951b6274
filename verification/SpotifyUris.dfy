/** Spotify URIs and their text form (core/src/spotify_uri.rs). */
module SpotifyUris {
  import opened Prelude
  import opened SpotifyIds

  const MAX_U64_PLUS_1: nat := 0x1_0000_0000_0000_0000
  const NANOS_PER_SECOND: nat := 1_000_000_000

  datatype Uri =
    | Album(id: nat) | Artist(id: nat) | Episode(id: nat) | Playlist(user: Option<string>, id: nat)
    | Show(id: nat) | Track(id: nat)
    | Local(artist: string, album: string, title: string, seconds: nat, nanos: nat)  // a `Duration`
    | Unknown(kind: string, name: string)

  datatype UriResult = Ok(uri: Uri) | InvalidRoot | InvalidFormat | InvalidId

  /** Ids have 128 bits; durations have 64 bits of seconds and less than one second of nanoseconds. */
  predicate Fits(u: Uri) {
    match u
    case Local(_, _, _, seconds, nanos) => seconds < MAX_U64_PLUS_1 && nanos < NANOS_PER_SECOND
    case Unknown(_, _) => true
    case _ => u.id < TWO128
  }

  // ---- `split(':')` as an iterator over what is left

  predicate NoColon(s: string) { forall i :: 0 <= i < |s| ==> s[i] != ':' }

  function Until(s: string): (r: string)
    ensures NoColon(r)
  {
    if s == "" || s[0] == ':' then "" else [s[0]] + Until(s[1..])
  }

  function After(s: string): Option<string> {
    if s == "" then None else if s[0] == ':' then Some(s[1..]) else After(s[1..])
  }

  // ---- Numbers

  function Decimal(n: nat): string {
    if n < 10 then [DigitChar(n)] else Decimal(n / 10) + [DigitChar(n % 10)]
  }

  predicate IsDecimal(s: string) { s != "" && forall i :: 0 <= i < |s| ==> '0' <= s[i] <= '9' }

  function DecimalValue(s: string): nat
    requires forall i :: 0 <= i < |s| ==> '0' <= s[i] <= '9'
  {
    if s == "" then 0 else 10 * DecimalValue(s[..|s| - 1]) + ((s[|s| - 1] as int) - ('0' as int))
  }

  /** `u64::from_str`: digits after an optional plus sign. */
  function ParseU64(s: string): Option<nat> {
    var digits := if s != "" && s[0] == '+' then s[1..] else s;
    if IsDecimal(digits) && DecimalValue(digits) < MAX_U64_PLUS_1 then Some(DecimalValue(digits)) else None
  }

  // ---- Text form

  function ItemType(u: Uri): string {
    match u
    case Album(_) => "album"
    case Artist(_) => "artist"
    case Episode(_) => "episode"
    case Playlist(_, _) => "playlist"
    case Show(_) => "show"
    case Track(_) => "track"
    case Local(_, _, _, _, _) => "local"
    case Unknown(_, _) => "unknown"
  }

  function ToId(u: Uri): string {
    match u
    case Local(artist, album, title, seconds, _) => artist + ":" + (album + ":" + (title + ":" + Decimal(seconds)))
    case Unknown(_, name) => name
    case _ => Expansion(u.id, SIZE)
  }

  function ToUri(u: Uri): string {
    if u.Playlist? && u.user.Some? then
      "spotify" + ":" + ("user" + ":" + (u.user.value + ":" + (ItemType(u) + ":" + ToId(u))))
    else "spotify" + ":" + (ItemType(u) + ":" + ToId(u))
  }

  function FromLocal(artist: string, left: Option<string>): UriResult {
    if left.None? then InvalidFormat
    else
      var album, afterAlbum := Until(left.value), After(left.value);
      if afterAlbum.None? then InvalidFormat
      else
        var title, afterTitle := Until(afterAlbum.value), After(afterAlbum.value);
        if afterTitle.None? then InvalidFormat
        else
          var seconds := ParseU64(Until(afterTitle.value));
          if seconds.None? then InvalidFormat else Ok(Local(artist, album, title, seconds.value, 0))
  }

  /** The part of `from_uri` after the item type: `name` is the next component, `left` what follows it. */
  function FromParts(user: Option<string>, itemType: string, name: string, left: Option<string>): UriResult {
    if itemType == "local" then FromLocal(name, left)
    else if itemType !in {"album", "artist", "episode", "playlist", "show", "track"} then Ok(Unknown(itemType, name))
    else
      var id := Decode(name);
      if id.None? then InvalidId
      else if itemType == "album" then Ok(Album(id.value))
      else if itemType == "artist" then Ok(Artist(id.value))
      else if itemType == "episode" then Ok(Episode(id.value))
      else if itemType == "playlist" then Ok(Playlist(user, id.value))
      else if itemType == "show" then Ok(Show(id.value))
      else Ok(Track(id.value))
  }

  /** From the component that holds the item type on. */
  function FromTyped(user: Option<string>, left: Option<string>): UriResult {
    if left.None? then InvalidFormat
    else
      var afterType := After(left.value);
      if afterType.None? then InvalidFormat
      else FromParts(user, Until(left.value), Until(afterType.value), After(afterType.value))
  }

  function FromUri(src: string): UriResult {
    if Until(src) != "spotify" then InvalidRoot
    else
      var left := After(src);
      if left.None? then InvalidFormat
      else if Until(left.value) == "user" then
        var named := After(left.value);
        if named.None? then InvalidFormat else FromTyped(Some(Until(named.value)), After(named.value))
      else FromTyped(None, left)
  }

  // ---- Round trip

  /** No text component holds a separator, and a duration is whole seconds: only those are written. */
  predicate Clean(u: Uri) {
    match u
    case Playlist(user, _) => user.Some? ==> NoColon(user.value)
    case Local(artist, album, title, _, nanos) => NoColon(artist) && NoColon(album) && NoColon(title) && nanos == 0
    case Unknown(kind, name) => kind == "unknown" && NoColon(name)
    case _ => true
  }

  lemma {:induction false} UntilWhole(s: string)
    requires NoColon(s)
    ensures Until(s) == s && After(s) == None
  {
    if s != "" { UntilWhole(s[1..]); }
  }

  lemma {:induction false} UntilPart(s: string, rest: string)
    requires NoColon(s)
    ensures Until(s + ":" + rest) == s && After(s + ":" + rest) == Some(rest)
  {
    if s == "" {
      assert s + ":" + rest == ":" + rest;
      assert (":" + rest)[1..] == rest;
    } else {
      UntilPart(s[1..], rest);
      assert (s + ":" + rest)[1..] == s[1..] + ":" + rest;
    }
  }

  lemma {:induction false} DecimalRoundTrip(n: nat)
    ensures IsDecimal(Decimal(n)) && DecimalValue(Decimal(n)) == n
  {
    if n < 10 {
      assert Decimal(n)[..0] == "";
    } else {
      DecimalRoundTrip(n / 10);
      var s := Decimal(n);
      assert s[..|s| - 1] == Decimal(n / 10);
    }
  }

  lemma ParseDecimal(n: nat)
    requires n < MAX_U64_PLUS_1
    ensures ParseU64(Decimal(n)) == Some(n) && NoColon(Decimal(n))
  {
    DecimalRoundTrip(n);
    assert '0' <= Decimal(n)[0] <= '9';
  }

  lemma ExpansionNoColon(n: nat)
    ensures NoColon(Expansion(n, SIZE))
  {
    ExpansionIsDigits(n, SIZE);
  }

  lemma LocalRoundTrip(u: Uri)
    requires u.Local? && Clean(u) && Fits(u)
    ensures FromParts(None, "local", Until(ToId(u)), After(ToId(u))) == Ok(u)
  {
    UntilPart(u.artist, u.album + ":" + (u.title + ":" + Decimal(u.seconds)));
    UntilPart(u.album, u.title + ":" + Decimal(u.seconds));
    UntilPart(u.title, Decimal(u.seconds));
    ParseDecimal(u.seconds);
    UntilWhole(Decimal(u.seconds));
  }

  lemma IdRoundTrip(u: Uri)
    requires Fits(u) && Clean(u)
    ensures FromParts(if u.Playlist? then u.user else None, ItemType(u), Until(ToId(u)), After(ToId(u))) == Ok(u)
  {
    match u
    case Local(_, _, _, _, _) => LocalRoundTrip(u);
    case Unknown(_, name) => UntilWhole(name);
    case _ =>
      ExpansionNoColon(u.id);
      UntilWhole(Expansion(u.id, SIZE));
      DecodeEncoded(u.id);
  }

  lemma TypedRoundTrip(u: Uri)
    requires Fits(u) && Clean(u)
    ensures FromTyped(if u.Playlist? then u.user else None, Some(ItemType(u) + ":" + ToId(u))) == Ok(u)
  {
    UntilPart(ItemType(u), ToId(u));
    IdRoundTrip(u);
  }

  lemma CleanRoundTrip(u: Uri)
    requires Fits(u) && Clean(u)
    ensures FromUri(ToUri(u)) == Ok(u)
  {
    hide FromTyped, ToId;
    var typed := ItemType(u) + ":" + ToId(u);
    TypedRoundTrip(u);
    if u.Playlist? && u.user.Some? {
      UntilPart("spotify", "user" + ":" + (u.user.value + ":" + typed));
      UntilPart("user", u.user.value + ":" + typed);
      UntilPart(u.user.value, typed);
    } else {
      UntilPart("spotify", typed);
      UntilPart(ItemType(u), ToId(u));
    }
  }

  /** Whatever is parsed has no separator in its components, and a duration of whole seconds. */
  lemma ParsedComponents(src: string)
    requires FromUri(src).Ok?
    ensures var u := FromUri(src).uri;
            && (u.Playlist? && u.user.Some? ==> NoColon(u.user.value))
            && (u.Local? ==> NoColon(u.artist) && NoColon(u.album) && NoColon(u.title) && u.nanos == 0)
            && (u.Unknown? ==> NoColon(u.name))
  {
  }

  lemma UnknownKindIsLost(u: Uri)
    requires u.Unknown?
    ensures FromUri(ToUri(u)) == Ok(Unknown("unknown", Until(u.name)))
  {
    UntilPart("spotify", "unknown" + ":" + u.name);
    UntilPart("unknown", u.name);
  }

  /**
   Main result: a URI survives the trip through its text exactly when no user, artist, album,
   title or unknown name holds a colon, a local duration is whole seconds and an unknown kind is
   spelled "unknown".
   */
  lemma UriRoundTrip(u: Uri)
    requires Fits(u)
    ensures FromUri(ToUri(u)) == Ok(u) <==> Clean(u)
  {
    hide FromUri, ToUri;
    if Clean(u) {
      CleanRoundTrip(u);
    } else if FromUri(ToUri(u)) == Ok(u) {
      ParsedComponents(ToUri(u));
      if u.Unknown? { UnknownKindIsLost(u); }
    }
  }

  /** A local file of one and a half seconds comes back as one second. */
  lemma HalfSecondIsLost()
    ensures var u := Local("artist", "album", "title", 1, 500_000_000);
            FromUri(ToUri(u)) != Ok(u) && FromUri(ToUri(u)) == Ok(u.(nanos := 0))
  {
    hide FromUri;
    var u := Local("artist", "album", "title", 1, 500_000_000);
    UriRoundTrip(u);
    CleanRoundTrip(u.(nanos := 0));
    assert ToUri(u) == ToUri(u.(nanos := 0));
  }

  // ---- The text itself

  /** How each kind of URI is written. */
  lemma TextForms(id: nat, user: string)
    requires id < TWO128
    ensures var text := Expansion(id, 22);
            && ToUri(Album(id)) == "spotify:album:" + text
            && ToUri(Artist(id)) == "spotify:artist:" + text
            && ToUri(Episode(id)) == "spotify:episode:" + text
            && ToUri(Show(id)) == "spotify:show:" + text
            && ToUri(Track(id)) == "spotify:track:" + text
            && ToUri(Playlist(None, id)) == "spotify:playlist:" + text
            && ToUri(Playlist(Some(user), id)) == "spotify:user:" + user + ":playlist:" + text
  {
    hide Expansion;
    var text := Expansion(id, 22);
    assert "spotify" + ":" + ("album" + ":" + text) == "spotify:album:" + text;
    assert "spotify" + ":" + ("artist" + ":" + text) == "spotify:artist:" + text;
    assert "spotify" + ":" + ("episode" + ":" + text) == "spotify:episode:" + text;
    assert "spotify" + ":" + ("show" + ":" + text) == "spotify:show:" + text;
    assert "spotify" + ":" + ("track" + ":" + text) == "spotify:track:" + text;
    assert "spotify" + ":" + ("playlist" + ":" + text) == "spotify:playlist:" + text;
    assert "spotify" + ":" + ("user" + ":" + (user + ":" + ("playlist" + ":" + text))) ==
           "spotify:user:" + user + ":playlist:" + text;
  }

  /** What the parser makes of a kind and a name; the name is an id for the six known kinds. */
  lemma ParsesKinds(kind: string, name: string)
    requires NoColon(kind) && NoColon(name) && kind != "user" && kind != "local"
    ensures var r, id := FromUri("spotify:" + kind + ":" + name), Decode(name);
            && (kind == "album" ==> r == if id.Some? then Ok(Album(id.value)) else InvalidId)
            && (kind == "artist" ==> r == if id.Some? then Ok(Artist(id.value)) else InvalidId)
            && (kind == "episode" ==> r == if id.Some? then Ok(Episode(id.value)) else InvalidId)
            && (kind == "show" ==> r == if id.Some? then Ok(Show(id.value)) else InvalidId)
            && (kind == "track" ==> r == if id.Some? then Ok(Track(id.value)) else InvalidId)
            && (kind == "playlist" ==> r == if id.Some? then Ok(Playlist(None, id.value)) else InvalidId)
            && (kind !in {"album", "artist", "episode", "playlist", "show", "track"} ==> r == Ok(Unknown(kind, name)))
  {
    hide Decode;
    assert "spotify:" + kind + ":" + name == "spotify" + ":" + (kind + ":" + name);
    UntilPart("spotify", kind + ":" + name);
    UntilPart(kind, name);
    UntilWhole(name);
  }

  /** The root decides first: nothing else but `spotify` and a colon is looked at. */
  lemma RootDecides(src: string)
    ensures FromUri(src).InvalidRoot? <==> !(src == "spotify" || "spotify:" <= src)
  {
    hide FromTyped, Until, After;
    TypedRoot();
    RootIs(src);
  }

  lemma TypedRoot()
    ensures forall user, left :: !FromTyped(user, left).InvalidRoot?
  {
    hide Decode, Until, After, ParseU64;
  }

  lemma RootIs(src: string)
    ensures Until(src) == "spotify" <==> src == "spotify" || "spotify:" <= src
  {
    hide Until, After;
    UntilIsPrefix(src);
    UntilWhole("spotify");
    if "spotify:" <= src {
      assert src == "spotify" + ":" + src[8..];
      UntilPart("spotify", src[8..]);
    }
  }

  lemma {:induction false} UntilIsPrefix(s: string)
    ensures Until(s) <= s && (Until(s) == s || s[|Until(s)|] == ':')
  {
    if s != "" && s[0] != ':' { UntilIsPrefix(s[1..]); }
  }
}
