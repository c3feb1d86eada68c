/** Fixed-width integer arithmetic of the AVR target.
 *  `unsigned char` is 8 bits, `signed char` (and plain `char`, which is signed
 *  on AVR) is 8 bits, `unsigned int` and `int` are 16 bits. */
module Bits {

  type u8 = x: int | 0 <= x < 0x100
  type i8 = x: int | -0x80 <= x < 0x80
  type u16 = x: int | 0 <= x < 0x1_0000

  /** The value an `unsigned int` holds once `x` is stored into it. */
  function Wrap16(x: int): (r: u16)
    ensures (r - x) % 0x1_0000 == 0
    ensures 0 <= x < 0x1_0000 ==> r == x
    ensures 0x1_0000 <= x < 0x2_0000 ==> r == x - 0x1_0000
  {
    x % 0x1_0000
  }

  /** The value an `unsigned char` holds once `x` is stored into it. */
  function Wrap8(x: int): (r: u8)
    ensures 0 <= x < 0x100 ==> r == x
    ensures 0x100 <= x < 0x200 ==> r == x - 0x100
  {
    x % 0x100
  }

  /** Byte 1 of a little-endian 16-bit word, `((unsigned char *)&x)[1]`. */
  function HighByte(x: u16): (r: u8)
    ensures r * 0x100 <= x < r * 0x100 + 0x100
  {
    x / 0x100
  }

  /** The byte kept when a 16-bit word is stored into an `unsigned char`. */
  function LowByte(x: u16): (r: u8)
    ensures HighByte(x) * 0x100 + r == x
  {
    x % 0x100
  }

  /** `x & 0x7` on an `unsigned char`: the channel mask, the low three
   *  bits (see Mask7IsBitAnd). */
  function Mask7(x: u8): (r: u8)
    ensures r < 8
    ensures x < 8 ==> r == x
    ensures (x - r) % 8 == 0
  {
    x % 8
  }

  /** The mask computed on the bits of a byte agrees with Mask7. */
  lemma Mask7IsBitAnd(b: bv8)
    ensures Mask7(b as int) == (b & 7) as int
  {
  }

  /** `!(x & 0x8000)` on an `unsigned int` (see Bit15ClearIsBitTest). */
  function Bit15Clear(x: u16): (b: bool)
    ensures b <==> HighByte(x) < 0x80
  {
    x < 0x8000
  }

  /** Bit 15 of a 16-bit word is clear exactly when the word is below
   *  0x8000. */
  lemma Bit15ClearIsBitTest(w: bv16)
    ensures Bit15Clear(w as int) <==> w & 0x8000 == 0
  {
  }

  /** C's `x / d`, which truncates toward zero (Dafny's `/` is Euclidean). */
  function CDiv(x: int, d: int): (q: int)
    requires d > 0
    ensures 0 <= x ==> 0 <= q && q * d <= x < q * d + d
    ensures x < 0 ==> q <= 0 && q * d - d < x <= q * d
  {
    if x >= 0 then x / d else -((-x) / d)
  }

  /** The two divisions differ on negative operands that are not multiples:
   *  C's quotient by 4 (the mixer's divisor) is one above Dafny's, as with
   *  -1 / 4, which is 0 in C and -1 in Dafny. */
  lemma CDivIsNotEuclidean(x: int)
    requires x < 0 && x % 4 != 0
    ensures CDiv(x, 4) == x / 4 + 1
  {
  }

  /** Adding to a wrapped value wraps like adding to the original. */
  lemma Wrap16Add(x: int, y: int)
    ensures Wrap16(Wrap16(x) + y) == Wrap16(x + y)
  {
    var q := x / 0x1_0000;
    assert x == q * 0x1_0000 + Wrap16(x);
    assert (Wrap16(x) + y) + q * 0x1_0000 == x + y;
  }

  /** Adding 0x100 to a word adds one to its high byte, modulo 256. */
  lemma HighByteStep(a: u16)
    ensures HighByte(Wrap16(a + 0x100)) == (HighByte(a) + 1) % 0x100
  {
  }

  /** One more step of 0x100 moves a high byte that counts `h` modulo 256
   *  on to h + 1. */
  lemma HighByteCycle(a: u16, b: u16, h: int)
    requires b == Wrap16(a + 0x100) && HighByte(a) == h % 0x100
    ensures HighByte(b) == (h + 1) % 0x100
  {
    HighByteStep(a);
    ModSucc(h, 0x100);
  }

  /** A round robin over eight slots that is at slot `p` reaches slot `k`
   *  after `m` more steps exactly when m is (k - p) mod 8. */
  lemma RoundRobinHit(p: nat, k: nat, m: nat)
    requires p < 8 && k < 8 && m < 8
    ensures (p + m) % 8 == k <==> m == (k - p) % 8
  {
  }

  /** A slot that counts `x` modulo 8 moves on to x + 1 when it is
   *  advanced by one modulo 8. */
  lemma RoundRobinSucc(x: int, p: int, q: int)
    requires p == x % 8 && q == (p + 1) % 8
    ensures q == (x + 1) % 8
  {
    ModSucc8(x);
  }

  /** Reducing modulo m (8 or 256) before adding one changes nothing
   *  modulo m. */
  lemma ModSucc(x: int, m: int)
    requires m == 8 || m == 0x100
    ensures (x % m + 1) % m == (x + 1) % m
  {
    if m == 8 {
      ModSucc8(x);
    } else {
      ModSucc256(x);
    }
  }

  lemma ModSucc8(x: int)
    ensures (x % 8 + 1) % 8 == (x + 1) % 8
  {
    var q := x / 8;
    assert x == q * 8 + x % 8;
    if x % 8 < 7 {
      assert (x + 1) / 8 == q;
    } else {
      assert (x + 1) / 8 == q + 1;
    }
  }

  lemma ModSucc256(x: int)
    ensures (x % 0x100 + 1) % 0x100 == (x + 1) % 0x100
  {
    var q := x / 0x100;
    assert x == q * 0x100 + x % 0x100;
    if x % 0x100 < 0xFF {
      assert (x + 1) / 0x100 == q;
    } else {
      assert (x + 1) / 0x100 == q + 1;
    }
  }

  /** One more round of `a` times `b`. */
  lemma MulSucc(a: int, b: int)
    ensures a * b + b == (a + 1) * b
  {
  }

  /** Multiplying by a natural number preserves order. */
  lemma MulMono(a: nat, b: nat, c: nat)
    requires a <= b
    ensures a * c <= b * c
  {
  }
}
