/**
 * Where a key lives: the 32-bit FNV-1a hash, `hash & mask` for the shard and `hash % n` for the
 * sub-shard. Words are natural numbers and the bit operators are spelled out on them.
 */
module Hashing {
  import opened Bytes

  const FNV_OFFSET := 2166136261
  const FNV_PRIME := 16777619
  const WORD := 0x1_0000_0000

  function Pow2(k: nat): (r: nat)
    ensures r >= 1
  {
    if k == 0 then 1 else 2 * Pow2(k - 1)
  }

  function And(a: nat, b: nat): (r: nat)
    ensures r <= a && r <= b
  {
    if a == 0 || b == 0 then 0 else (if a % 2 == 1 && b % 2 == 1 then 1 else 0) + 2 * And(a / 2, b / 2)
  }

  function Xor(a: nat, b: nat): nat {
    if a == 0 then b else if b == 0 then a else (a + b) % 2 + 2 * Xor(a / 2, b / 2)
  }

  function FnvFrom(h: nat, key: Bytes): nat
    decreases |key|
  {
    if key == [] then h else FnvFrom(Xor(h, key[0] as nat) * FNV_PRIME % WORD, key[1..])
  }

  function Fnv(key: Bytes): nat {
    FnvFrom(FNV_OFFSET, key)
  }

  /** The test of `New` and `Resize` on a shard count. */
  predicate PowerOfTwo(n: int) {
    n > 0 && And(n, n - 1) == 0
  }

  function ShardIndex(key: Bytes, mask: nat): (r: nat)
    ensures r <= mask
  {
    And(Fnv(key), mask)
  }

  method SubIndex(key: Bytes, numSubs: nat) returns (r: nat)
    requires numSubs > 0
    ensures r == Fnv(key) % numSubs && r < numSubs
  {
    var h: nat := FNV_OFFSET;
    var i := 0;
    while i < |key|
      invariant 0 <= i <= |key|
      invariant FnvFrom(h, key[i..]) == Fnv(key)
    {
      assert key[i..][1..] == key[i + 1..];
      h := Xor(h, key[i] as nat);
      h := h * FNV_PRIME % WORD;
      i := i + 1;
    }
    r := h % numSubs;
  }

  // ---- The operators, bit by bit ----

  function Bit(a: nat, k: nat): nat {
    a / Pow2(k) % 2
  }

  lemma BitAbove(a: nat, k: nat)
    requires k > 0
    ensures Bit(a, k) == Bit(a / 2, k - 1)
  {
    DividedTwice(a, 2, Pow2(k - 1));
  }

  lemma DividedTwice(a: nat, m: nat, p: nat)
    requires m > 0 && p > 0
    ensures a / (m * p) == a / m / p
  {
    var q, r, s := a / m / p, a % m, a / m % p;
    Regrouped(q, p, s, m, r);
    RestIsSmall(s, p, r, m);
    QuotientIs(a, m * p, q, s * m + r);
  }

  lemma Regrouped(q: nat, p: nat, s: nat, m: nat, r: nat)
    ensures (q * p + s) * m + r == q * (m * p) + (s * m + r)
  {
    assert (q * p + s) * m == q * p * m + s * m;
    assert q * p * m == q * (m * p);
  }

  lemma RestIsSmall(s: nat, p: nat, r: nat, m: nat)
    requires s < p && r < m
    ensures s * m + r < m * p
  {
    Grows(p - s, m);
    assert (p - s) * m == p * m - s * m;
  }

  lemma QuotientIs(a: nat, d: nat, q: nat, r: nat)
    requires d > 0 && a == q * d + r && r < d
    ensures a / d == q
  {
    QuotientUnique(q, r, a / d, a % d, d);
    SameFactor(q, a / d, d);
  }

  lemma SameFactor(q: nat, q': nat, d: nat)
    requires d > 0 && q * d == q' * d
    ensures q == q'
  {
    if q < q' {
      Grows(q' - q, d);
    } else if q' < q {
      Grows(q - q', d);
    }
  }

  lemma ZeroBit(k: nat)
    ensures Bit(0, k) == 0
  {
  }

  lemma LowBit(a: nat)
    ensures Bit(a, 0) == a % 2
  {
  }

  lemma {:induction false} XorStep(a: nat, b: nat)
    requires a > 0 && b > 0
    ensures Xor(a, b) / 2 == Xor(a / 2, b / 2) && Xor(a, b) % 2 == (a % 2 + b % 2) % 2
  {
    XorIs(a, b);
    Halves((a + b) % 2, Xor(a / 2, b / 2));
  }

  lemma {:induction false} XorIs(a: nat, b: nat)
    requires a > 0 && b > 0
    ensures Xor(a, b) == (a + b) % 2 + 2 * Xor(a / 2, b / 2)
  {
  }

  lemma Halves(low: nat, high: nat)
    requires low < 2
    ensures (low + 2 * high) / 2 == high && (low + 2 * high) % 2 == low
  {
  }

  /** Xor adds the bits of a place without carry. */
  lemma {:induction false} XorBits(a: nat, b: nat, k: nat)
    ensures Bit(Xor(a, b), k) == (Bit(a, k) + Bit(b, k)) % 2
    decreases a
  {
    if a == 0 || b == 0 {
      ZeroBit(k);
    } else if k == 0 {
      XorStep(a, b);
      LowBit(a);
      LowBit(b);
      LowBit(Xor(a, b));
    } else {
      XorAbove(a, b, k);
      XorBits(a / 2, b / 2, k - 1);
    }
  }

  lemma {:induction false} XorAbove(a: nat, b: nat, k: nat)
    requires a > 0 && b > 0 && k > 0
    ensures Bit(Xor(a, b), k) == Bit(Xor(a / 2, b / 2), k - 1)
    ensures Bit(a, k) == Bit(a / 2, k - 1) && Bit(b, k) == Bit(b / 2, k - 1)
  {
    XorStep(a, b);
    BitAbove(a, k);
    BitAbove(b, k);
    BitAbove(Xor(a, b), k);
  }

  /** And keeps the bits that are set in both. */
  lemma {:induction false} AndBits(a: nat, b: nat, k: nat)
    ensures Bit(And(a, b), k) == Bit(a, k) * Bit(b, k)
    decreases a
  {
    if a == 0 || b == 0 {
      ZeroBit(k);
    } else if k == 0 {
      AndLow(a, b);
      LowBit(a);
      LowBit(b);
      LowBit(And(a, b));
    } else {
      AndAbove(a, b, k);
      AndBits(a / 2, b / 2, k - 1);
    }
  }

  lemma {:induction false} AndLow(a: nat, b: nat)
    ensures And(a, b) / 2 == And(a / 2, b / 2) && And(a, b) % 2 == (a % 2) * (b % 2)
  {
    AndStep(a, b);
    Halves(if a % 2 == 1 && b % 2 == 1 then 1 else 0, And(a / 2, b / 2));
  }

  lemma {:induction false} AndAbove(a: nat, b: nat, k: nat)
    requires k > 0
    ensures Bit(And(a, b), k) == Bit(And(a / 2, b / 2), k - 1)
    ensures Bit(a, k) == Bit(a / 2, k - 1) && Bit(b, k) == Bit(b / 2, k - 1)
  {
    AndLow(a, b);
    BitAbove(a, k);
    BitAbove(b, k);
    BitAbove(And(a, b), k);
  }

  lemma {:induction false} FnvLast(h: nat, key: Bytes, b: Byte)
    ensures FnvFrom(h, key + [b]) == Xor(FnvFrom(h, key), b as nat) * 16777619 % 0x1_0000_0000
    decreases |key|
  {
    if key == [] {
      assert key + [b] == [b] && [b][1..] == [];
    } else {
      assert (key + [b])[1..] == key[1..] + [b] && (key + [b])[0] == key[0];
      FnvLast(Xor(h, key[0] as nat) * FNV_PRIME % WORD, key[1..], b);
    }
  }

  /** The 32-bit FNV-1a hash: its offset basis, then for each byte an exclusive or and a product. */
  lemma FnvIs(key: Bytes, b: Byte)
    ensures Fnv([]) == 0x811c9dc5
    ensures Fnv(key + [b]) == Xor(Fnv(key), b as nat) * 16777619 % 0x1_0000_0000
  {
    FnvLast(FNV_OFFSET, key, b);
  }

  // ---- Masks and remainders ----

  lemma {:induction false} QuotientUnique(q: int, r: int, q': int, r': int, m: nat)
    requires q * m + r == q' * m + r' && 0 <= r < m && 0 <= r' < m
    ensures r == r'
  {
    if q < q' {
      assert (q' - q) * m >= m by { Grows(q' - q, m); }
    } else if q' < q {
      assert (q - q') * m >= m by { Grows(q - q', m); }
    }
  }

  lemma Grows(d: int, m: nat)
    requires d >= 1
    ensures d * m >= m
  {
  }

  lemma ModIs(x: nat, m: nat, q: nat, r: nat)
    requires m > 0 && x == q * m + r && r < m
    ensures x % m == r
  {
    assert x == x / m * m + x % m;
    QuotientUnique(x / m, x % m, q, r, m);
  }

  lemma HalfMod(h: nat, p: nat)
    requires p > 0
    ensures h % (2 * p) == h % 2 + 2 * (h / 2 % p)
  {
    var q, r := h / 2 / p, h / 2 % p;
    assert h / 2 == q * p + r;
    assert q * (2 * p) == 2 * (q * p);
    ModIs(h, 2 * p, q, h % 2 + 2 * r);
  }

  lemma AndStep(a: nat, b: nat)
    ensures And(a, b) == (if a % 2 == 1 && b % 2 == 1 then 1 else 0) + 2 * And(a / 2, b / 2)
  {
  }

  lemma MaskStep(h: nat, p: nat, b: nat)
    requires p >= 1 && b == 2 * p - 1
    ensures And(h, b) == h % 2 + 2 * And(h / 2, p - 1)
  {
    assert b % 2 == 1 && b / 2 == p - 1;
    AndStep(h, b);
  }

  /** A mask of k ones is the remainder by 2^k. */
  lemma {:induction false} MaskIsMod(h: nat, k: nat)
    ensures And(h, Pow2(k) - 1) == h % Pow2(k)
    decreases k
  {
    if k > 0 {
      var p := Pow2(k - 1);
      MaskIsMod(h / 2, k - 1);
      MaskStep(h, p, Pow2(k) - 1);
      HalfMod(h, p);
    }
  }

  lemma {:induction false} AndSelf(a: nat)
    ensures And(a, a) == a
  {
    if a > 0 {
      AndSelf(a / 2);
    }
  }

  lemma OddTest(n: nat)
    requires n % 2 == 1
    ensures And(n, n - 1) == n - 1
  {
    assert (n - 1) % 2 == 0 && (n - 1) / 2 == n / 2;
    AndStep(n, n - 1);
    AndSelf(n / 2);
  }

  lemma EvenTest(n: nat)
    requires n % 2 == 0 && n > 0
    ensures And(n, n - 1) == 2 * And(n / 2, n / 2 - 1)
  {
    assert (n - 1) % 2 == 1 && (n - 1) / 2 == n / 2 - 1;
    AndStep(n, n - 1);
  }

  lemma Pow2Odd(k: nat)
    ensures Pow2(k) % 2 == 1 ==> Pow2(k) == 1
    ensures Pow2(k) % 2 == 0 ==> k > 0 && Pow2(k) / 2 == Pow2(k - 1)
  {
    if k > 0 {
      var q := Pow2(k - 1);
      assert Pow2(k) == 2 * q && 2 * q % 2 == 0 && 2 * q / 2 == q;
    }
  }

  ghost predicate IsPow2(n: nat) {
    exists k: nat :: n == Pow2(k)
  }

  lemma HalfIsPow2(n: nat)
    requires n % 2 == 0 && n > 0
    ensures IsPow2(n) <==> IsPow2(n / 2)
  {
    if k: nat :| n == Pow2(k) {
      Pow2Odd(k);
      assert n / 2 == Pow2(k - 1);
    }
    if k: nat :| n / 2 == Pow2(k) {
      assert n == Pow2(k + 1);
    }
  }

  lemma OddIsPow2(n: nat)
    requires n % 2 == 1
    ensures IsPow2(n) <==> n == 1
  {
    assert Pow2(0) == 1;
    if k: nat :| n == Pow2(k) {
      Pow2Odd(k);
    }
  }

  /** The bit test accepts exactly the powers of two. */
  lemma {:induction false} PowerOfTwoIff(n: nat)
    ensures PowerOfTwo(n) <==> IsPow2(n)
  {
    if n % 2 == 1 {
      OddTest(n);
      OddIsPow2(n);
    } else if n > 0 {
      EvenTest(n);
      HalfIsPow2(n);
      PowerOfTwoIff(n / 2);
    }
  }

  lemma ShardIndexIsMod(key: Bytes, count: nat)
    requires PowerOfTwo(count)
    ensures ShardIndex(key, count - 1) == Fnv(key) % count
  {
    PowerOfTwoIff(count);
    var k: nat :| count == Pow2(k);
    MaskIsMod(Fnv(key), k);
  }

  /**
   * Shard and sub-shard use the same hash, so a table whose shard count is a multiple of the
   * number of sub-shards puts all the keys of one shard into one sub-shard.
   */
  lemma SameShardSameSub(a: Bytes, b: Bytes, count: nat, numSubs: nat)
    requires PowerOfTwo(count) && numSubs > 0 && count % numSubs == 0
    requires ShardIndex(a, count - 1) == ShardIndex(b, count - 1)
    ensures Fnv(a) % numSubs == Fnv(b) % numSubs
  {
    ShardIndexIsMod(a, count);
    ShardIndexIsMod(b, count);
    ModOfMod(Fnv(a), count, numSubs);
    ModOfMod(Fnv(b), count, numSubs);
  }

  lemma Regroup(q: nat, e: nat, d: nat, s: nat, t: nat)
    requires t < d
    ensures (q * (e * d) + (s * d + t)) % d == t
  {
    assert q * (e * d) == q * e * d;
    assert (q * e + s) * d == q * e * d + s * d;
    ModIs(q * (e * d) + (s * d + t), d, q * e + s, t);
  }

  lemma ModOfMod(h: nat, m: nat, d: nat)
    requires m > 0 && d > 0 && m % d == 0
    ensures h % m % d == h % d
  {
    var q, r := h / m, h % m;
    var e, s, t := m / d, r / d, r % d;
    assert m == e * d && r == s * d + t && h == q * m + r;
    Regroup(q, e, d, s, t);
  }
}
