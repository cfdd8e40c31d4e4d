/**
 fnv32 (map.go:285-293): FNV-1 on 32 bits, with the offset basis and prime of sections 2.1 and
 2.2 of draft-eastlake-fnv. A Go string is its bytes, a uint32 is a number below 2^32.
 */
module Fnv {
  type Byte = x: nat | x < 256 witness 0
  type Word = x: nat | x < 0x1_0000_0000 witness 0
  type Key = seq<Byte>

  const WORD: nat := 0x1_0000_0000
  const OFFSET: Word := 2166136261
  const PRIME: nat := 16777619
  /** The inverse of the prime modulo 2^32; it exists because the prime is odd. */
  const INVERSE: nat := 899433627

  /** Exclusive or, bit by bit from the lowest. */
  function Xor(a: nat, b: nat): nat {
    if a == 0 then b else 2 * Xor(a / 2, b / 2) + (a % 2 + b % 2) % 2
  }

  function Pow2(n: nat): (p: nat)
    ensures p > 0
  {
    if n == 0 then 1 else 2 * Pow2(n - 1)
  }

  lemma {:induction false} XorStep(a: nat, b: nat)
    ensures Xor(a, b) == 2 * Xor(a / 2, b / 2) + (a % 2 + b % 2) % 2
  {
  }

  lemma {:induction false} XorHalves(a: nat, b: nat)
    ensures Xor(a, b) / 2 == Xor(a / 2, b / 2) && Xor(a, b) % 2 == (a % 2 + b % 2) % 2
  {
    XorStep(a, b);
  }

  lemma Halves(a: nat, b: nat)
    requires a / 2 == b / 2 && a % 2 == b % 2
    ensures a == b
  {
  }

  /** One bit is restored by adding the same bit twice. */
  lemma BitTwice(x: nat, y: nat)
    requires x < 2 && y < 2
    ensures ((x + y) % 2 + y) % 2 == x
  {
  }

  lemma {:induction false} XorBound(a: nat, b: nat, n: nat)
    requires a < Pow2(n) && b < Pow2(n)
    ensures Xor(a, b) < Pow2(n)
  {
    if n > 0 {
      XorBound(a / 2, b / 2, n - 1);
      XorStep(a, b);
    }
  }

  lemma {:induction false} XorCancels(a: nat, b: nat)
    ensures Xor(Xor(a, b), b) == a
    decreases a + b
  {
    if a + b > 0 {
      XorHalves(a, b);
      XorHalves(Xor(a, b), b);
      XorCancels(a / 2, b / 2);
      BitTwice(a % 2, b % 2);
      Halves(Xor(Xor(a, b), b), a);
    }
  }

  lemma {:induction false} XorInjective(a: nat, x: nat, y: nat)
    requires Xor(a, x) == Xor(a, y)
    ensures x == y
    decreases a
  {
    if a > 0 {
      XorStep(a, x);
      XorStep(a, y);
      XorInjective(a / 2, x / 2, y / 2);
    }
  }

  lemma ModStep(a: nat, n: nat)
    requires n > 0
    ensures a % Pow2(n) == 2 * ((a / 2) % Pow2(n - 1)) + a % 2
  {
    var p := Pow2(n - 1);
    var q, r := (a / 2) / p, (a / 2) % p;
    assert a == (2 * p) * q + (2 * r + a % 2);
    Remainder(2 * p, q, 2 * r + a % 2);
  }

  lemma Remainder(m: nat, q: int, r: nat)
    requires r < m
    ensures (m * q + r) % m == r
  {
    var k := (m * q + r) / m - q;
    assert m * k == r - (m * q + r) % m;
    if k >= 1 || k <= -1 {
      assert false;
    }
  }

  lemma {:induction false} XorMod(a: nat, b: nat, n: nat)
    ensures Xor(a, b) % Pow2(n) == Xor(a % Pow2(n), b % Pow2(n))
  {
    if n > 0 {
      var p := Pow2(n - 1);
      ModHalves(a, n);
      ModHalves(b, n);
      ModHalves(Xor(a, b), n);
      XorHalves(a, b);
      XorHalves(a % Pow2(n), b % Pow2(n));
      XorMod(a / 2, b / 2, n - 1);
      Halves(Xor(a, b) % Pow2(n), Xor(a % Pow2(n), b % Pow2(n)));
    }
  }

  lemma ModHalves(a: nat, n: nat)
    requires n > 0
    ensures a % Pow2(n) / 2 == (a / 2) % Pow2(n - 1) && a % Pow2(n) % 2 == a % 2
  {
    ModStep(a, n);
  }

  lemma Powers()
    ensures Pow2(5) == 32 && Pow2(32) == WORD
  {
    assert Pow2(5) == 32;
    assert Pow2(8) == 256;
    assert Pow2(12) == 16 * Pow2(8);
    assert Pow2(16) == 16 * Pow2(12);
    assert Pow2(20) == 16 * Pow2(16);
    assert Pow2(24) == 16 * Pow2(20);
    assert Pow2(28) == 16 * Pow2(24);
    assert Pow2(32) == 16 * Pow2(28);
  }

  // ---- the hash --------------------------------------------------------------------------

  function Multiply(hash: Word): Word {
    hash * PRIME % WORD
  }

  function XorByte(hash: Word, b: Byte): Word {
    Powers();
    XorBound(hash, b, 32);
    Xor(hash, b)
  }

  function HashFrom(hash: Word, key: Key): Word {
    if key == [] then hash else XorByte(Multiply(HashFrom(hash, key[..|key| - 1])), key[|key| - 1])
  }

  function Hash(key: Key): Word {
    HashFrom(OFFSET, key)
  }

  method Fnv32(key: Key) returns (hash: Word)
    ensures hash == Hash(key)
  {
    hash := OFFSET;
    var i := 0;
    while i < |key|
      invariant 0 <= i <= |key| && hash == HashFrom(OFFSET, key[..i])
    {
      assert key[..i + 1][..i] == key[..i];
      hash := Multiply(hash);
      hash := XorByte(hash, key[i]);
      i := i + 1;
    }
    assert key[..i] == key;
  }

  // ---- each step is a bijection ----------------------------------------------------------

  /** Multiplying by the inverse undoes the multiplication step. */
  lemma MultiplyInverse(hash: Word)
    ensures Multiply(hash) * INVERSE % WORD == hash
  {
    var q := hash * PRIME / WORD;
    assert PRIME * INVERSE == 1 + 3513497 * WORD;
    assert Multiply(hash) == hash * PRIME - q * WORD;
    assert Multiply(hash) * INVERSE == WORD * (hash * 3513497 - q * INVERSE) + hash;
    Remainder(WORD, hash * 3513497 - q * INVERSE, hash);
  }

  /** Different states stay different under the same bytes. */
  lemma {:induction false} HashFromInjective(h1: Word, h2: Word, key: Key)
    requires h1 != h2
    ensures HashFrom(h1, key) != HashFrom(h2, key)
    decreases |key|
  {
    if key != [] {
      var front, b := key[..|key| - 1], key[|key| - 1];
      HashFromInjective(h1, h2, front);
      MultiplyInverse(HashFrom(h1, front));
      MultiplyInverse(HashFrom(h2, front));
      XorCancels(Multiply(HashFrom(h1, front)), b);
      XorCancels(Multiply(HashFrom(h2, front)), b);
    }
  }

  lemma {:induction false} HashFromConcat(hash: Word, a: Key, b: Key)
    ensures HashFrom(hash, a + b) == HashFrom(HashFrom(hash, a), b)
    decreases |b|
  {
    if b == [] {
      assert a + b == a;
    } else {
      HashFromConcat(hash, a, b[..|b| - 1]);
      assert (a + b)[..|a + b| - 1] == a + b[..|b| - 1];
    }
  }

  /** Keys that differ in exactly one byte never collide. */
  lemma OneByteApartNeverCollides(a: Key, x: Byte, y: Byte, c: Key)
    requires x != y
    ensures Hash(a + [x] + c) != Hash(a + [y] + c)
  {
    HashFromConcat(OFFSET, a + [x], c);
    HashFromConcat(OFFSET, a + [y], c);
    assert (a + [x])[..|a|] == a && (a + [y])[..|a|] == a;
    if Hash(a + [x]) == Hash(a + [y]) {
      XorInjective(Multiply(Hash(a)), x, y);
    }
    HashFromInjective(Hash(a + [x]), Hash(a + [y]), c);
  }

  // ---- the shard index over 32 shards ----------------------------------------------------

  /** A recurrence on five bits: multiply by 19, xor the byte's low five bits, from 5. */
  function Index32(key: Key): nat {
    if key == [] then 5 else Xor(Index32(key[..|key| - 1]) * 19 % 32, key[|key| - 1] % 32)
  }

  lemma MultiplyLow(hash: Word)
    ensures Multiply(hash) % 32 == hash % 32 * 19 % 32
  {
    var q := hash * PRIME / WORD;
    assert Multiply(hash) == hash * PRIME - q * WORD;
    var r := hash % 32 * 19;
    var k := hash * 524300 - q * 134217728 + hash / 32 * 19 + r / 32;
    assert Multiply(hash) == 32 * k + r % 32;
    Remainder(32, k, r % 32);
  }

  /** The shard of a key among 32 depends on those five bits only. */
  lemma {:induction false} ShardIndexByFiveBits(key: Key)
    ensures Hash(key) % 32 == Index32(key)
    decreases |key|
  {
    if key != [] {
      var front, b := key[..|key| - 1], key[|key| - 1];
      ShardIndexByFiveBits(front);
      MultiplyLow(Hash(front));
      Powers();
      XorMod(Multiply(Hash(front)), b, 5);
    }
  }
}
