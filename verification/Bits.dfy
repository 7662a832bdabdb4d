/** Unsigned 64-bit shifts and masks, written on natural numbers. */
module Bits {

  const TWO16: nat := 0x1_0000
  const TWO32: nat := 0x1_0000_0000
  const TWO64: nat := 0x1_0000_0000_0000_0000

  type u16 = x: int | 0 <= x < 0x1_0000
  type u64 = x: int | 0 <= x < 0x1_0000_0000_0000_0000

  function Pow2(n: nat): (p: nat)
    ensures p > 0
  {
    if n == 0 then 1 else 2 * Pow2(n - 1)
  }

  // The C operators ~, >>, <<, &, | and ^ on unsigned integers.

  function Not64(x: u64): u64 {
    TWO64 - 1 - x
  }

  function Shr(x: nat, k: nat): nat
    decreases k, x   // x keeps the solver from unrolling constant shifts
  {
    if k == 0 then x else Shr(x / 2, k - 1)
  }

  function Shl(x: nat, k: nat): nat
    decreases k, x
  {
    if k == 0 then x else 2 * Shl(x, k - 1)
  }

  function Shl64(x: nat, k: nat): u64 {
    Shl(x, k) % TWO64
  }

  function And(x: nat, y: nat): nat {
    if x == 0 || y == 0 then 0
    else (if x % 2 == 1 && y % 2 == 1 then 1 else 0) + 2 * And(x / 2, y / 2)
  }

  function Or(x: nat, y: nat): nat
    decreases x + y
  {
    if x == 0 && y == 0 then 0
    else (if x % 2 == 1 || y % 2 == 1 then 1 else 0) + 2 * Or(x / 2, y / 2)
  }

  function Xor(x: nat, y: nat): nat
    decreases x + y
  {
    if x == 0 && y == 0 then 0
    else (if x % 2 != y % 2 then 1 else 0) + 2 * Xor(x / 2, y / 2)
  }

  /** The k lowest bits of x. */
  function Low(x: nat, k: nat): (v: nat)
    ensures v < Pow2(k)
    decreases k, x
  {
    if k == 0 then 0 else x % 2 + 2 * Low(x / 2, k - 1)
  }

  /** Bits start down to start + 1 - count of x, as a number: the meaning of a bit field. */
  function Slice(x: nat, start: nat, count: nat): (v: nat)
    requires count <= start + 1
    ensures v < Pow2(count)
  {
    Low(Shr(x, start + 1 - count), count)
  }

  /** Bit number i of x is set. */
  predicate Bit(x: nat, i: nat) {
    Shr(x, i) % 2 == 1
  }

  // Slices are quotients and remainders by powers of two.

  lemma ProductBelow(a: nat, b: nat, c: nat, d: nat)
    requires a <= c && b <= d
    ensures a * b <= c * d
  {
  }

  lemma Product(a: int, b: int, c: int)
    ensures a * (b * c) == (a * b) * c
  {
  }

  lemma UniqueQuotient(x: int, d: int, q: int, r: int)
    requires d > 0 && x == q * d + r && 0 <= r < d
    ensures x / d == q && x % d == r
  {
    var k := x / d - q;
    assert k * d == r - x % d;
    MulSign(k - 1, d);
    MulSign(-1 - k, d);
  }

  lemma MulSign(k: int, d: int)
    requires d > 0
    ensures k >= 0 ==> k * d >= 0
  {
  }

  lemma {:induction false} ShrIsDivision(x: nat, k: nat)
    ensures x == Shr(x, k) * Pow2(k) + Low(x, k)
    ensures Shr(x, k) == x / Pow2(k)
    ensures Low(x, k) == x % Pow2(k)
    decreases k
  {
    if k > 0 {
      ShrIsDivision(x / 2, k - 1);
      var s, p := Shr(x, k), Pow2(k - 1);
      assert x / 2 == s * p + Low(x / 2, k - 1);
      Product(s, 2, p);
      assert 2 * (s * p) == s * (2 * p);
    }
    UniqueQuotient(x, Pow2(k), Shr(x, k), Low(x, k));
  }

  /** A bit field is floor(x / 2^(start + 1 - count)) mod 2^count. */
  lemma SliceIsFloorMod(x: nat, start: nat, count: nat)
    requires count <= start + 1
    ensures Slice(x, start, count) == x / Pow2(start + 1 - count) % Pow2(count)
  {
    ShrIsDivision(x, start + 1 - count);
    ShrIsDivision(Shr(x, start + 1 - count), count);
  }

  // The steps of vm_getbits.

  lemma Pow2At16()
    ensures Pow2(16) == TWO16
  {
    assert Pow2(16) == 0x100 * Pow2(8) by { assert Pow2(12) == 0x10 * Pow2(8); }
  }

  lemma Pow2At32()
    ensures Pow2(32) == TWO32
  {
    Pow2At16();
    assert Pow2(24) == 0x100 * Pow2(16) by { assert Pow2(20) == 0x10 * Pow2(16); }
    assert Pow2(32) == 0x100 * Pow2(24) by { assert Pow2(28) == 0x10 * Pow2(24); }
  }

  lemma Pow2At64()
    ensures Pow2(64) == TWO64
  {
    Pow2At32();
    assert Pow2(40) == 0x100 * Pow2(32) by { assert Pow2(36) == 0x10 * Pow2(32); }
    assert Pow2(48) == 0x100 * Pow2(40) by { assert Pow2(44) == 0x10 * Pow2(40); }
    assert Pow2(56) == 0x100 * Pow2(48) by { assert Pow2(52) == 0x10 * Pow2(48); }
    assert Pow2(64) == 0x100 * Pow2(56) by { assert Pow2(60) == 0x10 * Pow2(56); }
  }

  lemma {:induction false} Pow2AtMost(a: nat, b: nat)
    requires a <= b
    ensures Pow2(a) <= Pow2(b)
  {
    if a < b {
      Pow2AtMost(a, b - 1);
    }
  }

  /** Masking with k ones keeps the k lowest bits. */
  lemma {:induction false} AndOnes(x: nat, k: nat)
    ensures And(x, Pow2(k) - 1) == Low(x, k)
    decreases k
  {
    if k > 0 {
      AndOnes(x / 2, k - 1);
      LowOfZero(k);
      assert (Pow2(k) - 1) % 2 == 1 && (Pow2(k) - 1) / 2 == Pow2(k - 1) - 1;
    }
  }

  lemma LowOfZero(k: nat)
    ensures Low(0, k) == 0
  {
  }

  lemma {:induction false} ShrOfLow(x: nat, low: nat, count: nat)
    ensures Shr(Low(x, low + count), low) == Low(Shr(x, low), count)
    decreases low
  {
    if low > 0 {
      ShrOfLow(x / 2, low - 1, count);
      assert Low(x, low + count) / 2 == Low(x / 2, low - 1 + count);
    }
  }

  lemma {:induction false} ShrOfOnes(k: nat, low: nat)
    ensures Shr(Pow2(low + k) - 1, low) == Pow2(k) - 1
    decreases low
  {
    if low > 0 {
      ShrOfOnes(k, low - 1);
      assert (Pow2(low + k) - 1) / 2 == Pow2(low - 1 + k) - 1;
    }
  }

  lemma {:induction false} ShlOfOnes(k: nat, low: nat)
    ensures Shl(Pow2(k) - 1, low) == Pow2(low + k) - Pow2(low)
  {
    if low > 0 {
      ShlOfOnes(k, low - 1);
    }
  }

  /** The mask built by vm_getbits: 64 ones shifted right leave start + 1 ones. */
  lemma OnesShifted(start: nat)
    requires start <= 63
    ensures Shr(Not64(0), 63 - start) == Pow2(start + 1) - 1
  {
    Pow2At64();
    ShrOfOnes(start + 1, 63 - start);
  }

  /** The value half of vm_getbits: mask, then shift. */
  lemma SliceByMask(x: nat, start: nat, count: nat)
    requires 0 < count <= start + 1
    ensures Shr(And(x, Pow2(start + 1) - 1), start + 1 - count) == Slice(x, start, count)
  {
    AndOnes(x, start + 1);
    ShrOfLow(x, start + 1 - count, count);
  }

  /** The marking half of vm_getbits: the word whose ones are the bits read. */
  lemma FieldMark(start: nat, count: nat)
    requires 0 < count <= start + 1 <= 64
    ensures Shl64(Shr(Pow2(start + 1) - 1, start + 1 - count), start + 1 - count) == Mark(start, count)
  {
    ShrOfOnes(count, start + 1 - count);
    ShlOfOnes(count, start + 1 - count);
    Pow2At64();
    Pow2AtMost(start + 1, 64);
  }

  /** The word with ones exactly in bits start down to start + 1 - count. */
  function Mark(start: nat, count: nat): nat
    requires count <= start + 1
  {
    Pow2AtMost(start + 1 - count, start + 1);
    Pow2(start + 1) - Pow2(start + 1 - count)
  }

  lemma {:induction false} BitOfOr(x: nat, y: nat, i: nat)
    ensures Bit(Or(x, y), i) <==> Bit(x, i) || Bit(y, i)
    decreases i
  {
    if i > 0 {
      assert Or(x, y) / 2 == Or(x / 2, y / 2);
      BitOfOr(x / 2, y / 2, i - 1);
    }
  }

  lemma {:induction false} BitOfOnes(k: nat, i: nat)
    ensures Bit(Pow2(k) - 1, i) <==> i < k
    decreases k
  {
    if k == 0 {
      ShrOfZero(i);
    } else if i > 0 {
      assert (Pow2(k) - 1) / 2 == Pow2(k - 1) - 1;
      BitOfOnes(k - 1, i - 1);
    }
  }

  lemma ShrOfZero(i: nat)
    ensures Shr(0, i) == 0
  {
  }

  lemma {:induction false} BitOfMark(start: nat, count: nat, i: nat)
    requires 0 < count <= start + 1
    ensures Bit(Mark(start, count), i) <==> start - count < i <= start
    decreases start
  {
    if count == start + 1 {
      BitOfOnes(count, i);
    } else if i > 0 {
      assert Mark(start, count) / 2 == Mark(start - 1, count);
      BitOfMark(start - 1, count, i - 1);
    }
  }

  /** Or-ing in a field's mark adds exactly the field's bits. */
  lemma MarkedBits(examined: nat, start: nat, count: nat)
    requires 0 < count <= start + 1
    ensures forall i: nat :: Bit(Or(examined, Mark(start, count)), i)
                        <==> Bit(examined, i) || start - count < i <= start
  {
    forall i: nat
      ensures Bit(Or(examined, Mark(start, count)), i) <==> Bit(examined, i) || start - count < i <= start
    {
      BitOfOr(examined, Mark(start, count), i);
      BitOfMark(start, count, i);
    }
  }
}
