/**
 The key exchange (core/src/diffie_hellman.rs): square-and-multiply modular exponentiation,
 and two parties deriving one secret in the group of section 6.1 of RFC 2409.
 */
module DiffieHellman {
  import opened Prelude

  const DH_GENERATOR: nat := 2
  const DH_PRIME: nat :=
    0xffffffffffffffffc90fdaa22168c234c4c6628b80dc1cd129024e088a67cc74020bbea63b139b22514a08798e3404ddef9519b3cd3a431b302b0a6df25f14374fe1356d6d51c245e485b576625e7ec6f44c42e9a63a3620ffffffffffffffff

  // ---- Exponentiation

  /** The reference: repeated multiplication. */
  function Pow(b: nat, e: nat): nat {
    if e == 0 then 1 else b * Pow(b, e - 1)
  }

  /** Reducing a factor first does not change a product modulo `m`. */
  lemma ReduceFactor(x: nat, y: nat, m: nat)
    requires m > 0
    ensures ((x % m) * y) % m == (x * y) % m
  {
    var q, r := x / m, x % m;
    assert x * y == m * (q * y) + r * y by {
      assert x == m * q + r;
      Distribute(m * q, r, y);
      assert (m * q) * y == m * (q * y);
    }
    AddMultiple(m, q * y, r * y);
  }

  lemma Distribute(a: nat, b: nat, y: nat)
    ensures (a + b) * y == a * y + b * y
  {
  }

  lemma {:induction false} AddMultiple(m: nat, k: nat, r: nat)
    requires m > 0
    ensures (m * k + r) % m == r % m
  {
    if k > 0 {
      AddMultiple(m, k - 1, r);
      assert m * k + r == m * (k - 1) + r + m;
      var x := m * (k - 1) + r;
      assert x == m * (x / m) + x % m;
      DivisionIsUnique(x + m, m, x / m + 1, x % m);
    }
  }

  lemma DivisionIsUnique(x: nat, m: nat, q: nat, r: nat)
    requires m > 0 && r < m && x == m * q + r
    ensures x % m == r
  {
    var d := x / m - q;
    assert x == m * (x / m) + x % m;
    assert m * d == r - x % m by { assert m * d == m * (x / m) - m * q; }
    AtLeastOnce(m, d);
  }

  lemma AtLeastOnce(m: nat, d: int)
    ensures d > 0 ==> m * d >= m
    ensures d < 0 ==> m * d + m <= 0
  {
  }

  lemma Associate(x: nat, y: nat, z: nat)
    ensures x * (y * z) == (x * y) * z
  {
  }

  lemma {:induction false} PowAdd(b: nat, e: nat, f: nat)
    ensures Pow(b, e + f) == Pow(b, e) * Pow(b, f)
  {
    if e > 0 {
      PowAdd(b, e - 1, f);
      Associate(b, Pow(b, e - 1), Pow(b, f));
    }
  }

  lemma {:induction false} PowOfSquare(b: nat, e: nat)
    ensures Pow(b * b, e) == Pow(b, 2 * e)
  {
    if e > 0 {
      PowOfSquare(b, e - 1);
      var rest := Pow(b, 2 * (e - 1));
      assert Pow(b, 2 * e) == b * (b * rest);
      assert (b * b) * rest == b * (b * rest);
    }
  }

  lemma {:induction false} PowMultiply(b: nat, e: nat, f: nat)
    ensures Pow(Pow(b, e), f) == Pow(b, e * f)
  {
    if f == 0 {
      assert e * f == 0;
    } else {
      PowMultiply(b, e, f - 1);
      PowAdd(b, e, e * (f - 1));
      assert e + e * (f - 1) == e * f;
    }
  }

  /** Reducing the base first does not change a power modulo `m`. */
  lemma {:induction false} ReduceBase(b: nat, e: nat, m: nat)
    requires m > 0
    ensures Pow(b % m, e) % m == Pow(b, e) % m
  {
    if e > 0 {
      var c, p, q := b % m, Pow(b % m, e - 1), Pow(b, e - 1);
      ReduceBase(b, e - 1, m);
      ReduceFactor(b, p, m);
      ReduceFactor(p, b, m);
      ReduceFactor(q, b, m);
      assert c * p % m == b * p % m;
      assert p * b == b * p && q * b == b * q;
    }
  }

  /** What is left to compute: `result * base^exp`, reduced. */
  ghost function Value(result: nat, base: nat, exp: nat, m: nat): nat
    requires m > 0
  {
    (result * Pow(base, exp)) % m
  }

  lemma ValueAtStart(b: nat, e: nat, m: nat)
    requires m > 0
    ensures Value(1, b, e, m) == Pow(b, e) % m
  {
    assert 1 * Pow(b, e) == Pow(b, e);
  }

  lemma ValueAtEnd(result: nat, base: nat, m: nat)
    requires result < m
    ensures Value(result, base, 0, m) == result
  {
    assert result * Pow(base, 0) == result;
  }

  /** One round of the loop keeps the value that is left to compute. */
  lemma RoundKeeps(result: nat, base: nat, exp: nat, m: nat)
    requires m > 0 && exp > 0
    ensures var next := if exp % 2 == 1 then (result * base) % m else result;
            Value(next, (base * base) % m, exp / 2, m) == Value(result, base, exp, m)
  {
    var half := exp / 2;
    var square := Pow(base * base, half);
    PowOfSquare(base, half);
    var next := if exp % 2 == 1 then (result * base) % m else result;
    var reduced := Pow((base * base) % m, half);
    ReduceBase(base * base, half, m);
    SameRest(next, reduced, square, m);
    if exp % 2 == 1 {
      ReduceFactor(result * base, square, m);
      assert exp == 2 * half + 1 && Pow(base, exp) == base * square;
      assert (result * base) * square == result * (base * square);
    } else {
      assert exp == 2 * half;
    }
  }

  lemma SameRest(x: nat, y: nat, z: nat, m: nat)
    requires m > 0 && y % m == z % m
    ensures (x * y) % m == (x * z) % m
  {
    ReduceFactor(y, x, m);
    ReduceFactor(z, x, m);
    assert y * x == x * y && z * x == x * z;
  }

  /** Square and multiply; with modulus 1 and exponent 0 the result would be 1, which is no residue. */
  method Powm(b: nat, e: nat, m: nat) returns (result: nat)
    requires m > 1
    ensures result == Pow(b, e) % m
  {
    hide Value, Pow;
    var base: nat, exp: nat := b, e;
    result := 1;
    ValueAtStart(b, e, m);
    while exp != 0
      invariant result < m
      invariant Value(result, base, exp, m) == Pow(b, e) % m
    {
      RoundKeeps(result, base, exp, m);
      if exp % 2 == 1 {
        result := (result * base) % m;
      }
      exp := exp / 2;
      base := (base * base) % m;
    }
    ValueAtEnd(result, base, m);
  }

  /** Raising to both exponents, with a reduction in between, gives the same value in either order. */
  lemma BothOrders(g: nat, a: nat, b: nat, m: nat)
    requires m > 0
    ensures Pow(Pow(g, a) % m, b) % m == Pow(g, a * b) % m
    ensures Pow(Pow(g, b) % m, a) % m == Pow(g, a * b) % m
  {
    ReduceBase(Pow(g, a), b, m);
    PowMultiply(g, a, b);
    ReduceBase(Pow(g, b), a, m);
    PowMultiply(g, b, a);
    assert a * b == b * a;
  }

  // ---- Numbers on the wire

  function FromBytesBe(bytes: seq<byte>): nat {
    if bytes == [] then 0 else FromBytesBe(bytes[..|bytes| - 1]) * 256 + bytes[|bytes| - 1] as int
  }

  function FromBytesLe(bytes: seq<byte>): nat {
    if bytes == [] then 0 else bytes[0] as int + 256 * FromBytesLe(bytes[1..])
  }

  /** A byte in front weighs more on the wire, and less in the random bytes. */
  lemma {:induction false} ByteOrder(x: byte, rest: seq<byte>)
    ensures FromBytesBe([x] + rest) == x as int * Pow(256, |rest|) + FromBytesBe(rest)
    ensures FromBytesLe([x] + rest) == x as int + 256 * FromBytesLe(rest)
    decreases |rest|
  {
    assert ([x] + rest)[1..] == rest;
    if rest == [] {
      assert [x] + rest == [x] && [x][..0] == [];
    } else {
      var n := |rest| - 1;
      ByteOrder(x, rest[..n]);
      assert ([x] + rest)[..n + 1] == [x] + rest[..n];
      Scale(x as int, Pow(256, n), FromBytesBe(rest[..n]));
    }
  }

  lemma Scale(x: int, power: int, value: int)
    ensures (x * power + value) * 256 == x * (256 * power) + value * 256
  {
  }

  /** The shortest representation; zero is one zero byte. */
  function ToBytesBe(n: nat): (bytes: seq<byte>)
    ensures bytes != []
    ensures FromBytesBe(bytes) == n
    ensures |bytes| > 1 ==> bytes[0] != 0
  {
    if n < 256 then
      assert [n][..0] == [];
      [n]
    else
      var front := ToBytesBe(n / 256);
      assert (front + [n % 256])[..|front|] == front;
      assert front[0] == 0 ==> front == [0] && FromBytesBe(front[..0]) == 0;
      front + [n % 256]
  }

  // ---- The exchange

  datatype DhLocalKeys = DhLocalKeys(privateKey: nat, publicKey: nat)

  /** `random` with the random bytes drawn outside. */
  method NewKeys(random: seq<byte>) returns (keys: DhLocalKeys)
    ensures keys.privateKey == FromBytesLe(random)
    ensures keys.publicKey == Pow(DH_GENERATOR, keys.privateKey) % DH_PRIME
  {
    var private := FromBytesLe(random);
    var public := Powm(DH_GENERATOR, private, DH_PRIME);
    keys := DhLocalKeys(private, public);
  }

  method SharedSecret(keys: DhLocalKeys, remoteKey: seq<byte>) returns (secret: seq<byte>)
    ensures secret == ToBytesBe(Pow(FromBytesBe(remoteKey), keys.privateKey) % DH_PRIME)
  {
    var shared := Powm(FromBytesBe(remoteKey), keys.privateKey, DH_PRIME);
    secret := ToBytesBe(shared);
  }

  /** Main result: whatever the random bytes, both sides send a public key and end with the same secret bytes. */
  method Exchange(ours: seq<byte>, theirs: seq<byte>) returns (ourSecret: seq<byte>, theirSecret: seq<byte>)
    ensures ourSecret == theirSecret
    ensures FromBytesBe(ourSecret) == Pow(2, FromBytesLe(ours) * FromBytesLe(theirs)) % DH_PRIME
  {
    var a := NewKeys(ours);
    var b := NewKeys(theirs);
    ourSecret := SharedSecret(a, ToBytesBe(b.publicKey));
    theirSecret := SharedSecret(b, ToBytesBe(a.publicKey));
    BothOrders(DH_GENERATOR, a.privateKey, b.privateKey, DH_PRIME);
  }
}
