/** Single bits of 64-bit words. */
module Bits {

  const ONES: bv64 := 0xFFFF_FFFF_FFFF_FFFF

  const ONE: bv64 := 1

  predicate Bit7(m: bv64, k: bv7)
    requires k < 64
  {
    (m >> k) & 1 == 1
  }

  predicate Bit(m: bv64, k: nat)
    requires k < 64
  {
    AmountInRange(k);
    Bit7(m, k as bv7)
  }

  // ------------------------------------------------------------ shift amounts

  lemma AmountInRange(a: nat)
    requires a < 64
    ensures a as bv7 < 64
  {
  }

  lemma AmountAndBack(a: nat)
    requires a < 64
    ensures (a as bv7) as nat == a
  {
  }

  lemma AmountBack(k: bv7)
    requires k < 64
    ensures k as nat < 64 && (k as nat) as bv7 == k
  {
  }

  lemma Order7(x: bv7, y: bv7)
    ensures x >= y <==> x as nat >= y as nat
  {
  }

  lemma AmountOrder(a: nat, b: nat)
    requires a < 64 && b < 64
    ensures a as bv7 >= b as bv7 <==> a >= b
  {
    AmountAndBack(a);
    AmountAndBack(b);
    Order7(a as bv7, b as bv7);
  }

  lemma AmountEqual(a: nat, b: nat)
    requires a < 64 && b < 64
    ensures a as bv7 == b as bv7 <==> a == b
  {
    AmountAndBack(a);
    AmountAndBack(b);
  }

  lemma NextAmount(k: bv7)
    requires k < 63
    ensures k + 1 <= 63 && (k + 1) as nat == k as nat + 1
  {
  }

  // ------------------------------------------------------------ masks

  lemma BitAnd(m: bv64, n: bv64, k: nat)
    requires k < 64
    ensures Bit(m & n, k) <==> Bit(m, k) && Bit(n, k)
  {
    AmountInRange(k);
    And7(m, n, k as bv7);
  }

  lemma And7(m: bv64, n: bv64, k: bv7)
    requires k < 64
    ensures Bit7(m & n, k) <==> Bit7(m, k) && Bit7(n, k)
  {
  }

  lemma BitNot(m: bv64, k: nat)
    requires k < 64
    ensures Bit(!m, k) <==> !Bit(m, k)
  {
    AmountInRange(k);
    Not7(m, k as bv7);
  }

  lemma Not7(m: bv64, k: bv7)
    requires k < 64
    ensures Bit7(!m, k) <==> !Bit7(m, k)
  {
  }

  /** The ones from bit `s` on. */
  lemma BitHigh(s: nat, k: nat)
    requires s < 64 && k < 64
    ensures Bit(ONES << (s as bv7), k) <==> k >= s
  {
    AmountInRange(k);
    AmountInRange(s);
    AmountOrder(k, s);
    High7(s as bv7, k as bv7);
  }

  lemma High7(s: bv7, k: bv7)
    requires s < 64 && k < 64
    ensures Bit7(ONES << s, k) <==> k >= s
  {
  }

  /** The ones below bit `n` are what is left by the ones from it on. */
  lemma LowIsNotHigh(n: bv7)
    requires n < 64
    ensures (ONE << n) - 1 == !(ONES << n)
  {
  }

  lemma BitSingle(j: nat, k: nat)
    requires j < 64 && k < 64
    ensures Bit(1 << (j as bv7), k) <==> k == j
  {
    AmountInRange(j);
    AmountInRange(k);
    AmountEqual(k, j);
    Single7(j as bv7, k as bv7);
  }

  lemma Single7(j: bv7, k: bv7)
    requires j < 64 && k < 64
    ensures Bit7(1 << j, k) <==> k == j
  {
  }

  lemma BitOr(m: bv64, n: bv64, k: nat)
    requires k < 64
    ensures Bit(m | n, k) <==> Bit(m, k) || Bit(n, k)
  {
    AmountInRange(k);
    Or7(m, n, k as bv7);
  }

  lemma Or7(m: bv64, n: bv64, k: bv7)
    requires k < 64
    ensures Bit7(m | n, k) <==> Bit7(m, k) || Bit7(n, k)
  {
  }

  lemma BitOnes(k: nat)
    requires k < 64
    ensures Bit(ONES, k)
  {
    AmountInRange(k);
    Ones7(k as bv7);
  }

  lemma Ones7(k: bv7)
    requires k < 64
    ensures Bit7(ONES, k)
  {
  }

  lemma BitZero(k: nat)
    requires k < 64
    ensures !Bit(0, k)
  {
    AmountInRange(k);
    Zero7(k as bv7);
  }

  lemma Zero7(k: bv7)
    requires k < 64
    ensures !Bit7(0, k)
  {
  }

  // ------------------------------------------------------------ the lowest set bit

  predicate Lowest(v: bv64, k: bv7)
  {
    k < 64 && Bit7(v, k) && v & ((1 << k) - 1) == 0
  }

  lemma NoneBelow(v: bv64, k: bv7, j: bv7)
    requires Lowest(v, k) && j < k
    ensures !Bit7(v, j)
  {
  }

  lemma LowMaskGrows(k: bv7)
    requires k < 63
    ensures k + 1 <= 64 && (ONE << (k + 1)) - 1 == ((ONE << k) - 1) | (ONE << k)
  {
  }

  lemma MissingBit(v: bv64, k: bv7)
    requires k < 64 && !Bit7(v, k)
    ensures v & (1 << k) == 0
  {
  }

  lemma ClearBoth(v: bv64, m: bv64, n: bv64)
    requires v & m == 0 && v & n == 0
    ensures v & (m | n) == 0
  {
  }

  lemma ClearUpTo(v: bv64, k: bv7)
    requires k < 63 && !Bit7(v, k) && v & ((1 << k) - 1) == 0
    ensures k + 1 <= 63 && v & ((1 << (k + 1)) - 1) == 0
  {
    LowMaskGrows(k);
    MissingBit(v, k);
    ClearBoth(v, (1 << k) - 1, 1 << k);
  }

  lemma ClearToTop(v: bv64)
    requires !Bit7(v, 63) && v & ((1 << (63 as bv7)) - 1) == 0
    ensures v == 0
  {
  }

  /** No set bit below `k`. */
  predicate Clear(v: bv64, k: bv7)
  {
    k < 64 && v & ((1 << k) - 1) == 0
  }

  /** The lowest set bit is at `k` or above `k`, which leaves one position less. */
  lemma OneFurther(v: bv64, k: bv7, left: nat)
    requires v != 0 && Clear(v, k) && left == 63 - k as nat
    ensures Lowest(v, k) || (Clear(v, k + 1) && left >= 1 && left - 1 == 63 - (k + 1) as nat)
  {
    if !Bit7(v, k) {
      if k == 63 {
        ClearToTop(v);
        assert false;
      }
      ClearUpTo(v, k);
      NextAmount(k);
    }
  }

  lemma {:induction false} FindLowest(v: bv64, k: bv7, left: nat) returns (r: bv7)
    requires v != 0 && Clear(v, k) && left == 63 - k as nat
    ensures Lowest(v, r)
    decreases left
  {
    OneFurther(v, k, left);
    if Lowest(v, k) {
      r := k;
    } else {
      r := FindLowest(v, k + 1, left - 1);
    }
  }

  lemma Isolate(v: bv64, k: bv7)
    requires Lowest(v, k)
    ensures v & (0 - v) == 1 << k
  {
  }

  /** Each of the six masks selects the positions with one particular index bit clear. */
  lemma Columns(k: bv7)
    requires k < 64
    ensures (1 << k) & 0x0000_0000_FFFF_FFFF != 0 as bv64 <==> k & 32 == 0
    ensures (1 << k) & 0x0000_FFFF_0000_FFFF != 0 as bv64 <==> k & 16 == 0
    ensures (1 << k) & 0x00FF_00FF_00FF_00FF != 0 as bv64 <==> k & 8 == 0
    ensures (1 << k) & 0x0F0F_0F0F_0F0F_0F0F != 0 as bv64 <==> k & 4 == 0
    ensures (1 << k) & 0x3333_3333_3333_3333 != 0 as bv64 <==> k & 2 == 0
    ensures (1 << k) & 0x5555_5555_5555_5555 != 0 as bv64 <==> k & 1 == 0
    ensures (1 << k) != 0 as bv64
  {
  }

  /** A number below 64 from its binary digits. */
  lemma Digits(k: bv7)
    requires k < 64
    ensures k == 63 - (if k & 32 == 0 then 32 else 0) - (if k & 16 == 0 then 16 else 0) - (if k & 8 == 0 then 8 else 0)
                 - (if k & 4 == 0 then 4 else 0) - (if k & 2 == 0 then 2 else 0) - (if k & 1 == 0 then 1 else 0)
  {
  }

  /** The number of zero bits on the right, found by testing the isolated lowest bit against six masks. */
  method CountZeros(word: bv64) returns (c: bv7)
    ensures if word == 0 then c == 64 else Lowest(word, c)
  {
    ghost var k: bv7 := 0;
    if word != 0 {
      k := FindLowest(word, 0, 63);
      Isolate(word, k);
      Columns(k);
      Digits(k);
    }
    var v := word & (0 - word);
    c := 64;
    if v != 0 { c := c - 1; }
    if v & 0x0000_0000_FFFF_FFFF != 0 { c := c - 32; }
    if v & 0x0000_FFFF_0000_FFFF != 0 { c := c - 16; }
    if v & 0x00FF_00FF_00FF_00FF != 0 { c := c - 8; }
    if v & 0x0F0F_0F0F_0F0F_0F0F != 0 { c := c - 4; }
    if v & 0x3333_3333_3333_3333 != 0 { c := c - 2; }
    if v & 0x5555_5555_5555_5555 != 0 { c := c - 1; }
  }

  lemma LowestIsFirst(word: bv64, k: bv7)
    requires Lowest(word, k)
    ensures k as nat < 64 && Bit(word, k as nat) && forall j :: 0 <= j < k as nat ==> !Bit(word, j)
  {
    AmountBack(k);
    forall j | 0 <= j < k as nat ensures !Bit(word, j) {
      AmountOrder(j, k as nat);
      AmountInRange(j);
      NoneBelow(word, k, j as bv7);
    }
  }

  /** The position of the lowest set bit, 64 if there is none. */
  method FirstOneIdx(word: bv64) returns (c: nat)
    ensures c <= 64 && (c < 64 ==> Bit(word, c)) && forall j :: 0 <= j < c ==> !Bit(word, j)
    ensures c == 64 <==> word == 0
  {
    if word == 0 {
      forall j | 0 <= j < 64 ensures !Bit(word, j) { BitZero(j); }
      return 64;
    }
    var k := CountZeros(word);
    LowestIsFirst(word, k);
    c := k as nat;
  }
}
