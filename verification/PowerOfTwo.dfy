/**
 Rounding a 64-bit size up to a power of two by smearing bits. The lemmas speak about bit masks,
 which bit-blasting decides quickly, and turn to order only at the end.
 */
module PowerOfTwo {

  const MAX_POWER: bv64 := 0x8000_0000_0000_0000

  predicate IsPower(p: bv64)
  {
    p != 0 && p & (p - 1) == 0
  }

  /** No gap below a set bit. */
  predicate Filled(m: bv64)
  {
    m | (m >> (1 as bv7)) == m
  }

  /** The set bits of `k` all lie below power `p`. */
  predicate Below(k: bv64, p: bv64)
  {
    k & (p - 1) == k
  }

  /** After the six steps there are no gaps. */
  lemma SmearedFills(s: bv64, s1: bv64, s2: bv64, s3: bv64, s4: bv64, s5: bv64, m: bv64)
    requires s1 == s | (s >> (1 as bv7)) && s2 == s1 | (s1 >> (2 as bv7)) && s3 == s2 | (s2 >> (4 as bv7))
    requires s4 == s3 | (s3 >> (8 as bv7)) && s5 == s4 | (s4 >> (16 as bv7)) && m == s5 | (s5 >> (32 as bv7))
    ensures Filled(m) && m & s == s
  {
  }

  /** After the six steps the highest bit is still a bit of the original. */
  lemma SmearedTop(s: bv64, s1: bv64, s2: bv64, s3: bv64, s4: bv64, s5: bv64, m: bv64)
    requires s1 == s | (s >> (1 as bv7)) && s2 == s1 | (s1 >> (2 as bv7)) && s3 == s2 | (s2 >> (4 as bv7))
    requires s4 == s3 | (s3 >> (8 as bv7)) && s5 == s4 | (s4 >> (16 as bv7)) && m == s5 | (s5 >> (32 as bv7))
    ensures (m ^ (m >> (1 as bv7))) | s == s
  {
  }

  /** One more than a filled number is a power of two, or 0 when all bits are set. */
  lemma FilledPlusOne(m: bv64)
    requires Filled(m)
    ensures m + 1 != 0 ==> IsPower(m + 1) && (m + 1) >> (1 as bv7) == m ^ (m >> (1 as bv7))
    ensures m + 1 == 0 <==> m & MAX_POWER != 0
  {
  }

  lemma HighBit(n: bv64)
    ensures (n - 1) & MAX_POWER != 0 <==> n == 0 || n > MAX_POWER
  {
  }

  /** A filled number and the number it was smeared from share their highest bit. */
  lemma SameHighBit(m: bv64, k: bv64)
    requires Filled(m) && m & k == k && (m ^ (m >> (1 as bv7))) | k == k
    ensures m & MAX_POWER == k & MAX_POWER && (k == 0 ==> m == 0)
    ensures k != 0 ==> k & (m ^ (m >> (1 as bv7))) != 0
  {
  }

  lemma BelowIsLess(n: bv64, p: bv64)
    requires n != 0 && IsPower(p)
    ensures Below(n - 1, p) ==> n <= p
  {
  }

  lemma LessIsBelow(n: bv64, p: bv64)
    requires n != 0 && IsPower(p)
    ensures !Below(n - 1, p) ==> n > p
  {
  }

  /** A power above a number whose highest bit is half of `s` is no smaller than `s`. */
  lemma NoPowerBetween(k: bv64, p: bv64, s: bv64)
    requires IsPower(p) && IsPower(s) && Below(k, p) && Below(k, s) && k & (s >> (1 as bv7)) != 0
    ensures p >= s
  {
  }

  /** `s` is the power of two whose half is the highest bit of `k`, or 1 if `k` is 0. */
  predicate Tops(s: bv64, k: bv64)
  {
    IsPower(s) && Below(k, s) && (if k == 0 then s == 1 else k & (s >> (1 as bv7)) != 0)
  }

  /** `s` is what a request of `n` bytes is rounded up to. */
  predicate RoundsTo(n: bv64, s: bv64)
  {
    n != 0 && Tops(s, n - 1)
  }

  lemma TopsIsLeast(k: bv64, s: bv64, p: bv64)
    requires Tops(s, k) && IsPower(p) && Below(k, p)
    ensures p >= s
  {
    if k != 0 { NoPowerBetween(k, p, s); }
  }

  /** What `n` is rounded up to is the least power of two that is not smaller than `n`. */
  lemma RoundedIsLeast(n: bv64, s: bv64)
    requires RoundsTo(n, s)
    ensures s >= n && forall p :: IsPower(p) && p >= n ==> p >= s
  {
    BelowIsLess(n, s);
    forall p | IsPower(p) && p >= n ensures p >= s {
      LessIsBelow(n, p);
      TopsIsLeast(n - 1, s, p);
    }
  }

  lemma FilledTops(m: bv64, k: bv64)
    requires Filled(m) && m & k == k && (m ^ (m >> (1 as bv7))) | k == k && m + 1 != 0
    ensures Tops(m + 1, k)
  {
    FilledPlusOne(m);
    SameHighBit(m, k);
  }

  lemma FilledOverflows(m: bv64, k: bv64)
    requires Filled(m) && m & k == k && (m ^ (m >> (1 as bv7))) | k == k
    ensures m + 1 == 0 <==> k & MAX_POWER != 0
  {
    FilledPlusOne(m);
    SameHighBit(m, k);
  }

  lemma Rounded(k: bv64, s1: bv64, s2: bv64, s3: bv64, s4: bv64, s5: bv64, m: bv64)
    requires s1 == k | (k >> (1 as bv7)) && s2 == s1 | (s1 >> (2 as bv7)) && s3 == s2 | (s2 >> (4 as bv7))
    requires s4 == s3 | (s3 >> (8 as bv7)) && s5 == s4 | (s4 >> (16 as bv7)) && m == s5 | (s5 >> (32 as bv7))
    ensures m + 1 == 0 <==> k & MAX_POWER != 0
    ensures m + 1 != 0 ==> Tops(m + 1, k)
  {
    SmearedFills(k, s1, s2, s3, s4, s5, m);
    SmearedTop(k, s1, s2, s3, s4, s5, m);
    FilledOverflows(m, k);
    if m + 1 != 0 { FilledTops(m, k); }
  }

  /** The size rounded up to the power of two above `n - 1`, 0 when there is none. */
  method RoundUpToPowerOfTwo(n: bv64) returns (s: bv64)
    ensures s == 0 <==> (n - 1) & MAX_POWER != 0
    ensures s != 0 ==> Tops(s, n - 1)
  {
    s := n - 1;
    ghost var s0 := s;
    s := s | (s >> (0x1 as bv7));
    ghost var s1 := s;
    s := s | (s >> (0x2 as bv7));
    ghost var s2 := s;
    s := s | (s >> (0x4 as bv7));
    ghost var s3 := s;
    s := s | (s >> (0x8 as bv7));
    ghost var s4 := s;
    s := s | (s >> (0x10 as bv7));
    ghost var s5 := s;
    s := s | (s >> (0x20 as bv7));
    Rounded(s0, s1, s2, s3, s4, s5, s);
    s := s + 1;
  }

  /** A request of `n` bytes is rounded to `size`, which is 0 for 0 bytes and for more than the largest power. */
  ghost predicate RoundsUp(n: bv64, s: bv64, size: nat)
  {
    && size == s as nat && (size == 0 <==> s == 0)
    && (s == 0 <==> n == 0 || n > MAX_POWER) && (s != 0 ==> RoundsTo(n, s))
  }

  /** The rounded size as a number. */
  method RoundedSize(n: bv64) returns (s: bv64, size: nat)
    ensures RoundsUp(n, s, size)
  {
    HighBit(n);
    s := RoundUpToPowerOfTwo(n);
    size := s as nat;
    NonZero(s);
  }

  lemma NonZero(s: bv64)
    ensures s as nat == 0 <==> s == 0
  {
  }
}
