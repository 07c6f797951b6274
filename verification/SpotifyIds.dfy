/**
 Base-62 text of 128-bit ids (core/src/spotify_id.rs).

 `to_base62` avoids 128-bit division: it feeds four 32-bit limbs through a digit array with a
 64-bit carry. The reference is the plain 22-digit expansion by repeated division.
 */
module SpotifyIds {
  import opened Prelude

  const TWO32: nat := 0x1_0000_0000
  const TWO128: nat := 0x1_0000_0000_0000_0000_0000_0000_0000_0000
  const MAX_U64: nat := 0xFFFF_FFFF_FFFF_FFFF
  const SIZE: nat := 22

  // ---- Reference

  /** Entry `d` of the digit table 0-9, a-z, A-Z. */
  function DigitChar(d: nat): char
    requires d < 62
  {
    if d < 10 then (('0' as int) + d) as char
    else if d < 36 then (('a' as int) + d - 10) as char
    else (('A' as int) + d - 36) as char
  }

  /** The last `k` base-62 digits of `n`, most significant first. */
  function Expansion(n: nat, k: nat): (s: string)
    ensures |s| == k
  {
    if k == 0 then "" else Expansion(n / 62, k - 1) + [DigitChar(n % 62)]
  }

  function DigitValue(c: char): (d: Option<nat>)
    ensures d.Some? ==> d.value < 62
  {
    if '0' <= c <= '9' then Some((c as int) - ('0' as int))
    else if 'a' <= c <= 'z' then Some((c as int) - ('a' as int) + 10)
    else if 'A' <= c <= 'Z' then Some((c as int) - ('A' as int) + 36)
    else None
  }

  predicate AllDigits(s: string) { forall i :: 0 <= i < |s| ==> DigitValue(s[i]).Some? }

  function Value(s: string): nat
    requires AllDigits(s)
  {
    if s == "" then 0 else 62 * Value(s[..|s| - 1]) + DigitValue(s[|s| - 1]).value
  }

  /** The strings `from_base62` accepts, and the id it reads. */
  function Decode(s: string): Option<nat> {
    if |s| == SIZE && AllDigits(s) && Value(s) < TWO128 then Some(Value(s)) else None
  }

  lemma DigitRoundTrip(d: nat)
    requires d < 62
    ensures DigitValue(DigitChar(d)) == Some(d)
  {
  }

  lemma DigitInverse(c: char)
    requires DigitValue(c).Some?
    ensures DigitChar(DigitValue(c).value) == c
  {
  }

  function Pow62(k: nat): (p: nat)
    ensures p > 0
  {
    if k == 0 then 1 else 62 * Pow62(k - 1)
  }

  // ---- What the digits are

  /** The table of the source, in its order. */
  lemma DigitTable(d: nat)
    requires d < 62
    ensures DigitChar(d) == ("0123456789" + "abcdefghijklmnopqrstuvwxyz" + "ABCDEFGHIJKLMNOPQRSTUVWXYZ")[d]
  {
    if d < 10 {
      DecimalDigit(d);
    } else if d < 36 {
      LowerDigit(d - 10);
    } else {
      UpperDigit(d - 36);
    }
  }

  lemma DecimalDigit(d: nat)
    requires d < 10
    ensures "0123456789"[d] == ('0' as int + d) as char
  {
  }

  lemma LowerDigit(d: nat)
    requires d < 26
    ensures "abcdefghijklmnopqrstuvwxyz"[d] == ('a' as int + d) as char
  {
  }

  lemma UpperDigit(d: nat)
    requires d < 26
    ensures "ABCDEFGHIJKLMNOPQRSTUVWXYZ"[d] == ('A' as int + d) as char
  {
  }

  lemma DivideTwice(n: nat, p: nat)
    requires p > 0
    ensures n / 62 / p == n / (62 * p)
  {
    var q, r := n / 62 / p, n / 62 % p;
    var low := n % 62;
    assert n / 62 == p * q + r && n == 62 * (n / 62) + low;
    Distribute62(p * q, r);
    assert 62 * (p * q) == (62 * p) * q;
    assert n == (62 * p) * q + (62 * r + low);
    assert 62 * r + low < 62 * p;
    QuotientIs(n, 62 * p, q, 62 * r + low);
  }

  lemma Distribute62(a: nat, b: nat)
    ensures 62 * (a + b) == 62 * a + 62 * b
  {
  }

  lemma QuotientIs(n: nat, m: nat, q: nat, r: nat)
    requires m > 0 && r < m && n == m * q + r
    ensures n / m == q
  {
    var d := n / m - q;
    assert n == m * (n / m) + n % m;
    assert m * d == r - n % m by { assert m * d == m * (n / m) - m * q; }
    BiggerThan(m, d);
  }

  lemma BiggerThan(m: nat, d: int)
    ensures d > 0 ==> m * d >= m
    ensures d < 0 ==> m * d + m <= 0
  {
  }

  /** The digit of weight 62^j stands `j` places from the end. */
  lemma {:induction false} ExpansionDigit(n: nat, k: nat, j: nat)
    requires j < k
    ensures Expansion(n, k)[k - 1 - j] == DigitChar(n / Pow62(j) % 62)
  {
    if j > 0 {
      ExpansionDigit(n / 62, k - 1, j - 1);
      DivideTwice(n, Pow62(j - 1));
    }
  }

  // ---- The reference is a bijection

  lemma {:induction false} ExpansionIsDigits(n: nat, k: nat)
    ensures AllDigits(Expansion(n, k))
  {
    if k > 0 {
      ExpansionIsDigits(n / 62, k - 1);
      DigitRoundTrip(n % 62);
    }
  }

  /** Reading the digits back gives the number, if it has no more digits than that. */
  lemma {:induction false} ValueOfExpansion(n: nat, k: nat)
    requires n < Pow62(k)
    ensures AllDigits(Expansion(n, k)) && Value(Expansion(n, k)) == n
  {
    ExpansionIsDigits(n, k);
    if k > 0 {
      ValueOfExpansion(n / 62, k - 1);
      DigitRoundTrip(n % 62);
      var s := Expansion(n, k);
      assert s[..|s| - 1] == Expansion(n / 62, k - 1);
    }
  }

  lemma {:induction false} ExpansionOfValue(s: string)
    requires AllDigits(s)
    ensures Expansion(Value(s), |s|) == s && Value(s) < Pow62(|s|)
  {
    if s != "" {
      var init, d := s[..|s| - 1], DigitValue(s[|s| - 1]).value;
      ExpansionOfValue(init);
      DigitInverse(s[|s| - 1]);
      assert Value(s) / 62 == Value(init) && Value(s) % 62 == d;
    }
  }

  lemma Associate(x: nat, y: nat, z: nat)
    ensures x * (y * z) == (x * y) * z
  {
  }

  lemma {:induction false} PowAdd(a: nat, b: nat)
    ensures Pow62(a + b) == Pow62(a) * Pow62(b)
  {
    if a > 0 {
      PowAdd(a - 1, b);
      Associate(62, Pow62(a - 1), Pow62(b));
    } else {
      assert Pow62(0) == 1;
    }
  }

  /** 22 digits are enough for 128 bits. */
  lemma EnoughDigits()
    ensures TWO128 <= Pow62(SIZE)
  {
    assert Pow62(2) == 3844;
    PowAdd(2, 2);
    PowAdd(4, 4);
    PowAdd(8, 8);
    PowAdd(16, 4);
    PowAdd(20, 2);
  }

  /** Main result: encoding then decoding is the identity on ids. */
  lemma DecodeEncoded(id: nat)
    requires id < TWO128
    ensures Decode(Expansion(id, SIZE)) == Some(id)
  {
    EnoughDigits();
    ValueOfExpansion(id, SIZE);
  }

  /** Main result: decoding then encoding is the identity on accepted strings. */
  lemma EncodeDecoded(s: string)
    requires Decode(s).Some?
    ensures Expansion(Decode(s).value, SIZE) == s
  {
    ExpansionOfValue(s);
  }

  // ---- Little-endian digits

  predicate AreDigits(ds: seq<nat>) { forall i :: 0 <= i < |ds| ==> ds[i] < 62 }

  function Number(ds: seq<nat>): nat {
    if ds == [] then 0 else ds[0] + 62 * Number(ds[1..])
  }

  lemma {:induction false} NumberSnoc(ds: seq<nat>, d: nat)
    ensures Number(ds + [d]) == Number(ds) + d * Pow62(|ds|)
  {
    if ds == [] {
      assert ds + [d] == [d];
      assert [d][1..] == [];
    } else {
      NumberSnoc(ds[1..], d);
      assert (ds + [d])[1..] == ds[1..] + [d];
      assert 62 * (d * Pow62(|ds| - 1)) == d * Pow62(|ds|);
    }
  }

  lemma NumberTake(ds: seq<nat>, k: nat)
    requires k < |ds|
    ensures Number(ds[..k + 1]) == Number(ds[..k]) + ds[k] * Pow62(k)
  {
    assert ds[..k + 1] == ds[..k] + [ds[k]];
    NumberSnoc(ds[..k], ds[k]);
  }

  lemma {:induction false} NumberZeros(ds: seq<nat>, i: nat)
    requires i <= |ds| && forall k :: i <= k < |ds| ==> ds[k] == 0
    ensures Number(ds) == Number(ds[..i])
    decreases |ds| - i
  {
    if i == |ds| {
      assert ds[..i] == ds;
    } else {
      NumberTake(ds, i);
      NumberZeros(ds, i + 1);
    }
  }

  /** The text of little-endian digits. */
  function Render(ds: seq<nat>): string
    requires AreDigits(ds)
  {
    if ds == [] then "" else Render(ds[1..]) + [DigitChar(ds[0])]
  }

  lemma {:induction false} RenderIsExpansion(ds: seq<nat>)
    requires AreDigits(ds)
    ensures Render(ds) == Expansion(Number(ds), |ds|)
  {
    if ds != [] {
      RenderIsExpansion(ds[1..]);
      assert Number(ds) / 62 == Number(ds[1..]) && Number(ds) % 62 == ds[0];
    }
  }

  lemma {:induction false} PowMonotone(a: nat, b: nat)
    requires a <= b
    ensures Pow62(a) <= Pow62(b)
    decreases b
  {
    if a < b { PowMonotone(a, b - 1); }
  }

  // ---- Limbs

  /** `n >> (32 * words)`. */
  function ShiftRight(n: nat, words: nat): nat
    decreases words
  {
    if words == 0 then n else ShiftRight(n / TWO32, words - 1)
  }

  lemma {:induction false} ShiftOnce(n: nat, words: nat)
    ensures ShiftRight(n, words + 1) == ShiftRight(n, words) / TWO32
    ensures ShiftRight(n, words) <= n
    decreases words
  {
    if words > 0 { ShiftOnce(n / TWO32, words - 1); }
  }

  lemma AllShifted(n: nat)
    requires n < TWO128
    ensures ShiftRight(n, 4) == 0
  {
    assert ShiftRight(n, 4) == n / TWO32 / TWO32 / TWO32 / TWO32;
  }

  // ---- The algorithm

  /** A carry below 2^32 stays below it, and the sum fits 64 bits. */
  lemma CarryFits(carry: nat, d: nat)
    requires carry < TWO32 && d < 62
    ensures carry + d * TWO32 <= MAX_U64 && (carry + d * TWO32) / 62 < TWO32
  {
  }

  lemma MultiplyStep(value: nat, carry: nat, d: nat, p: nat, limb: nat, old_: nat, e: nat, next: nat)
    requires value + carry * p == limb + TWO32 * old_
    requires carry + d * TWO32 == 62 * next + e
    ensures (value + e * p) + next * (62 * p) == limb + TWO32 * (old_ + d * p)
  {
    calc {
      (value + e * p) + next * (62 * p);
      value + (62 * next + e) * p;
      value + (carry + d * TWO32) * p;
      value + carry * p + TWO32 * (d * p);
      limb + TWO32 * (old_ + d * p);
    }
  }

  /** The first inner loop: multiplies the `i` digits so far by 2^32 and adds the limb. */
  method MultiplyAdd(dst: array<nat>, i: nat, limb: nat) returns (carry: nat)
    requires i <= dst.Length && limb < TWO32 && AreDigits(dst[..])
    modifies dst
    ensures AreDigits(dst[..]) && carry < TWO32
    ensures dst[i..] == old(dst[i..])
    ensures Number(dst[..i]) + carry * Pow62(i) == limb + TWO32 * Number(old(dst[..i]))
  {
    carry := limb;
    ghost var was := dst[..];
    for k := 0 to i
      invariant AreDigits(dst[..]) && carry < TWO32
      invariant dst[k..] == was[k..]
      invariant Number(dst[..k]) + carry * Pow62(k) == limb + TWO32 * Number(was[..k])
    {
      assert dst[k] == was[k];
      CarryFits(carry, dst[k]);
      ghost var value := Number(dst[..k]);
      ghost var before := dst[..k];
      var sum := carry + dst[k] * TWO32;
      assert sum <= MAX_U64;
      MultiplyStep(value, carry, was[k], Pow62(k), limb, Number(was[..k]), sum % 62, sum / 62);
      NumberTake(was, k);
      dst[k] := sum % 62;
      carry := sum / 62;
      assert dst[..k] == before;
      NumberTake(dst[..], k);
      assert dst[..][..k] == dst[..k] && dst[..][..k + 1] == dst[..k + 1];
    }
    assert was[..i] == old(dst[..i]) && was[i..] == old(dst[i..]);
  }

  /** A positive carry above `i` digits of a number below 2^128 leaves room for one more. */
  lemma RoomForDigit(value: nat, carry: nat, i: nat)
    requires carry > 0 && value + carry * Pow62(i) < TWO128
    ensures i < SIZE
  {
    hide Pow62;
    EnoughDigits();
    AtLeastOnce(carry, Pow62(i));
    if i >= SIZE { PowMonotone(SIZE, i); }
  }

  lemma AtLeastOnce(carry: nat, p: nat)
    requires carry > 0
    ensures p <= carry * p
  {
  }

  lemma AppendStep(value: nat, carry: nat, p: nat)
    ensures (value + carry % 62 * p) + carry / 62 * (62 * p) == value + carry * p
  {
    var e, next := carry % 62, carry / 62;
    assert carry == 62 * next + e;
    assert (62 * next + e) * p == next * (62 * p) + e * p;
  }

  /** The second inner loop: writes the carry as further digits; never past the array. */
  method AppendCarry(dst: array<nat>, first: nat, carry: nat) returns (i: nat)
    requires dst.Length == SIZE && first <= SIZE && AreDigits(dst[..])
    requires Number(dst[..first]) + carry * Pow62(first) < TWO128
    requires forall k :: first <= k < SIZE ==> dst[k] == 0
    modifies dst
    ensures first <= i <= SIZE && AreDigits(dst[..])
    ensures Number(dst[..i]) == old(Number(dst[..first]) + carry * Pow62(first))
    ensures forall k :: i <= k < SIZE ==> dst[k] == 0
  {
    i := first;
    var left: nat := carry;
    ghost var total := Number(dst[..first]) + carry * Pow62(first);
    while left > 0
      invariant first <= i <= SIZE && AreDigits(dst[..])
      invariant Number(dst[..i]) + left * Pow62(i) == total
      invariant forall k :: i <= k < SIZE ==> dst[k] == 0
      decreases left
    {
      RoomForDigit(Number(dst[..i]), left, i);
      AppendStep(Number(dst[..i]), left, Pow62(i));
      ghost var before := dst[..i];
      dst[i] := left % 62;
      left := left / 62;
      assert dst[..i] == before;
      NumberTake(dst[..], i);
      assert dst[..][..i] == dst[..i] && dst[..][..i + 1] == dst[..i + 1];
      i := i + 1;
    }
    assert left * Pow62(i) == 0;
  }

  /** One turn of the outer loop. */
  method AddLimb(dst: array<nat>, first: nat, limb: nat) returns (i: nat)
    requires dst.Length == SIZE && first <= SIZE && AreDigits(dst[..]) && limb < TWO32
    requires limb + TWO32 * Number(dst[..first]) < TWO128
    requires forall k :: first <= k < SIZE ==> dst[k] == 0
    modifies dst
    ensures first <= i <= SIZE && AreDigits(dst[..])
    ensures Number(dst[..i]) == limb + TWO32 * old(Number(dst[..first]))
    ensures forall k :: i <= k < SIZE ==> dst[k] == 0
  {
    ghost var tail := dst[first..];
    var carry := MultiplyAdd(dst, first, limb);
    forall k | first <= k < SIZE
      ensures dst[k] == 0
    {
      assert dst[k] == dst[first..][k - first] == tail[k - first];
    }
    i := AppendCarry(dst, first, carry);
  }

  /** Main result: the limb algorithm writes the plain expansion. */
  method ToBase62(id: nat) returns (s: string)
    requires id < TWO128
    ensures s == Expansion(id, SIZE)
  {
    var dst := new nat[SIZE](_ => 0);
    var i: nat := 0;
    AllShifted(id);
    assert dst[..0] == [];
    for w := 0 to 4
      invariant i <= SIZE && AreDigits(dst[..])
      invariant Number(dst[..i]) == ShiftRight(id, 4 - w)
      invariant forall k :: i <= k < SIZE ==> dst[k] == 0
    {
      ShiftOnce(id, 3 - w);
      var limb := ShiftRight(id, 3 - w) % TWO32;
      i := AddLimb(dst, i, limb);
    }
    NumberZeros(dst[..], i);
    assert dst[..][..i] == dst[..i];
    RenderIsExpansion(dst[..]);
    s := Text(dst[..]);
  }

  /** Most significant digit first: the array is read from its end. */
  method Text(ds: seq<nat>) returns (s: string)
    requires AreDigits(ds)
    ensures s == Render(ds)
  {
    s := "";
    assert ds[0..] == ds;
    for k := 0 to |ds|
      invariant Render(ds) == Render(ds[k..]) + s
    {
      assert ds[k..][1..] == ds[k + 1..];
      s := [DigitChar(ds[k])] + s;
    }
  }

  /** Main result: accepts exactly the 22-digit strings below 2^128, without overflow. */
  method FromBase62(src: string) returns (id: Option<nat>)
    ensures id == Decode(src)
  {
    if |src| != SIZE { return None; }
    var dst: nat := 0;
    for k := 0 to |src|
      invariant AllDigits(src[..k]) && dst == Value(src[..k]) < TWO128
    {
      assert src[..k + 1][..k] == src[..k];
      var p := DigitValue(src[k]);
      if p.None? { return None; }
      assert AllDigits(src[..k + 1]);
      if 62 * dst >= TWO128 || 62 * dst + p.value >= TWO128 {
        if AllDigits(src) { ValueGrows(src, k + 1); }
        return None;
      }
      dst := 62 * dst + p.value;
    }
    assert src[..|src|] == src;
    return Some(dst);
  }

  /** More digits never make the value smaller, so an overflow is final. */
  lemma {:induction false} ValueGrows(s: string, k: nat)
    requires AllDigits(s) && k <= |s|
    ensures AllDigits(s[..k]) && Value(s[..k]) <= Value(s)
    decreases |s| - k
  {
    if k == |s| {
      assert s[..k] == s;
    } else {
      ValueGrows(s, k + 1);
      assert s[..k + 1][..k] == s[..k];
    }
  }
}
