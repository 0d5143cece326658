/** Bit-level vocabulary shared by the flag unit, the register file and the
    CPU: the ranges of uint8_t and uint16_t, powers of two, single bits,
    population count (the parity check) and the bitwise operators, all over
    unbounded integers. */
module Bits {

  /** An unsigned 8-bit value (uint8_t). */
  type Byte = x: int | 0 <= x < 0x100

  /** An unsigned 16-bit value (uint16_t). */
  type Word = x: int | 0 <= x < 0x1_0000

  /** Reduction modulo 2^16: what storing an int into a uint16_t does. */
  function Wrap16(x: int): Word
  {
    x % 0x1_0000
  }

  /** Adding after the reduction is adding before it. */
  lemma Wrap16Shift(x: int, d: int)
    ensures Wrap16(Wrap16(x) + d) == Wrap16(x + d)
  {
    var m := 0x1_0000;
    var y := x + d;
    assert x == m * (x / m) + x % m;
    assert y == m * (y / m) + y % m;
    DivisionUnique(x % m + d, m, y / m - x / m, y % m);
  }

  /** Two single steps of a 16-bit counter are one step of two. */
  lemma Wrap16Twice(x: int)
    ensures Wrap16(Wrap16(x - 1) - 1) == Wrap16(x - 2)
    ensures Wrap16(Wrap16(x + 1) + 1) == Wrap16(x + 2)
  {
    Wrap16Shift(x - 1, -1);
    Wrap16Shift(x + 1, 1);
  }

  function Pow2(n: nat): (r: nat)
    ensures r >= 1
  {
    if n == 0 then 1 else 2 * Pow2(n - 1)
  }

  /** The powers of two the 8- and 16-bit widths use. */
  lemma Pow2Values()
    ensures Pow2(1) == 2 && Pow2(2) == 4 && Pow2(3) == 8 && Pow2(4) == 0x10
    ensures Pow2(5) == 0x20 && Pow2(6) == 0x40 && Pow2(7) == 0x80 && Pow2(8) == 0x100
    ensures Pow2(15) == 0x8000 && Pow2(16) == 0x1_0000
  {
    assert Pow2(8) == 0x100;
    assert Pow2(12) == 0x1000;
    assert Pow2(16) == 0x1_0000;
  }

  /** Bit i of x, that is (x >> i) & 1. */
  function Bit(x: nat, i: nat): (b: nat)
    ensures b <= 1
  {
    if i == 0 then x % 2 else Bit(x / 2, i - 1)
  }

  /** The number of ones among the low n bits of x (std::bitset<n>(x).count()). */
  function PopCount(x: nat, n: nat): (c: nat)
    ensures c <= n
  {
    if n == 0 then 0 else x % 2 + PopCount(x / 2, n - 1)
  }

  /** checkParity: true iff the low n bits of x hold an even number of ones. */
  predicate EvenParity(x: nat, n: nat)
  {
    PopCount(x, n) % 2 == 0
  }

  /** x with bit i inverted. */
  function FlipBit(x: nat, i: nat): nat
  {
    if i == 0 then (if x % 2 == 1 then x - 1 else x + 1)
    else 2 * FlipBit(x / 2, i - 1) + x % 2
  }

  datatype BitOp = AndOp | OrOp | XorOp

  /** One bit of a bitwise operator, on bits a and b. */
  function ApplyBit(op: BitOp, a: nat, b: nat): (r: nat)
    requires a <= 1 && b <= 1
    ensures r <= 1
  {
    match op
    case AndOp => a * b
    case OrOp => if a + b > 0 then 1 else 0
    case XorOp => (a + b) % 2
  }

  /** The n-bit bitwise operator (a & b, a | b, a ^ b on n-bit operands). */
  function Bitwise(op: BitOp, a: nat, b: nat, n: nat): (r: nat)
    ensures r < Pow2(n)
  {
    if n == 0 then 0
    else 2 * Bitwise(op, a / 2, b / 2, n - 1) + ApplyBit(op, a % 2, b % 2)
  }

  /** Each bit of a bitwise result is the operator applied to the operands' bits. */
  lemma {:induction false} BitwiseBit(op: BitOp, a: nat, b: nat, n: nat, i: nat)
    requires i < n
    ensures Bit(Bitwise(op, a, b, n), i) == ApplyBit(op, Bit(a, i), Bit(b, i))
  {
    var r := Bitwise(op, a, b, n);
    assert r / 2 == Bitwise(op, a / 2, b / 2, n - 1);
    if i > 0 {
      BitwiseBit(op, a / 2, b / 2, n - 1, i - 1);
    }
  }

  /** checkParity(0) holds: zero has no set bits. */
  lemma {:induction false} ParityOfZero(n: nat)
    ensures PopCount(0, n) == 0 && EvenParity(0, n)
  {
    if n > 0 {
      ParityOfZero(n - 1);
    }
  }

  /** FlipBit inverts bit i and keeps every other bit. */
  lemma {:induction false} FlipBitBits(x: nat, i: nat, j: nat)
    ensures Bit(FlipBit(x, i), j) == if j == i then 1 - Bit(x, i) else Bit(x, j)
  {
    FlipBitHalves(x, i);
    if i > 0 && j > 0 {
      FlipBitBits(x / 2, i - 1, j - 1);
    }
  }

  /** Flipping any one of the low n bits changes the parity answer. */
  lemma {:induction false} FlipBitFlipsParity(x: nat, n: nat, i: nat)
    requires i < n
    ensures EvenParity(FlipBit(x, i), n) == !EvenParity(x, n)
    ensures PopCount(FlipBit(x, i), n) == if Bit(x, i) == 1 then PopCount(x, n) - 1 else PopCount(x, n) + 1
  {
    var y := FlipBit(x, i);
    FlipBitHalves(x, i);
    if i > 0 {
      FlipBitFlipsParity(x / 2, n - 1, i - 1);
    }
  }

  /** FlipBit on the lowest bit and on the rest. */
  lemma FlipBitHalves(x: nat, i: nat)
    ensures i == 0 ==> FlipBit(x, i) / 2 == x / 2 && FlipBit(x, i) % 2 == 1 - x % 2
    ensures i > 0 ==> FlipBit(x, i) / 2 == FlipBit(x / 2, i - 1) && FlipBit(x, i) % 2 == x % 2
  {
    var y := FlipBit(x, i);
    if i == 0 {
      DivisionUnique(y, 2, x / 2, 1 - x % 2);
    } else {
      DivisionUnique(y, 2, FlipBit(x / 2, i - 1), x % 2);
    }
  }

  /** Division is determined by any quotient and remainder in range. */
  lemma DivisionUnique(x: int, d: int, q: int, t: int)
    requires 0 <= t < d && x == d * q + t
    ensures x / d == q && x % d == t
  {
    var k := q - x / d;
    assert d * k == x % d - t;
    MultipleBound(d, k);
  }

  /** A nonzero multiple of d is at least d away from zero. */
  lemma {:induction false} MultipleBound(d: int, k: int)
    requires d > 0
    ensures k > 0 ==> d * k >= d
    ensures k < 0 ==> d * k <= -d
    decreases if k < 0 then -k else k
  {
    if k > 1 {
      MultipleBound(d, k - 1);
      assert d * k == d * (k - 1) + d;
    } else if k < -1 {
      MultipleBound(d, k + 1);
      assert d * k == d * (k + 1) - d;
    }
  }

  /** Bit i of x is the parity of x shifted right by i. */
  lemma {:induction false} BitAsDivision(x: nat, i: nat)
    ensures Bit(x, i) == (x / Pow2(i)) % 2
  {
    if i > 0 {
      var p := Pow2(i - 1);
      BitAsDivision(x / 2, i - 1);
      HalveThenDivide(x, p);
      assert x / Pow2(i) == (x / 2) / p;
    }
  }

  /** Bit i of x is bit when x is hi * 2^(i+1) + bit * 2^i + lo, with
      lo below 2^i; p names 2^i so that callers can pass it as a literal. */
  lemma BitOfComposite(x: nat, hi: nat, bit: nat, lo: nat, i: nat, p: nat)
    requires p == Pow2(i) && bit <= 1 && lo < p
    requires x == 2 * p * hi + p * bit + lo
    ensures Bit(x, i) == bit
  {
    var q := 2 * hi + bit;
    assert x / p == q by {
      assert p * q == p * (2 * hi) + p * bit;
      assert p * (2 * hi) == 2 * p * hi;
      DivisionUnique(x, p, q, lo);
    }
    assert q % 2 == bit by {
      DivisionUnique(q, 2, hi, bit);
    }
    BitAsDivision(x, i);
  }

  /** Two residues of consecutive integers differ. */
  lemma ConsecutiveResiduesDiffer(x: int, m: int)
    requires m >= 2
    ensures x % m != (x + 1) % m
  {
    var q, t := x / m, x % m;
    if t < m - 1 {
      DivisionUnique(x + 1, m, q, t + 1);
    } else {
      DivisionUnique(x + 1, m, q + 1, 0);
    }
  }

  /** Two n-bit values with the same n bits are equal. */
  lemma {:induction false} BitsDetermineValue(x: nat, y: nat, n: nat)
    requires x < Pow2(n) && y < Pow2(n)
    requires forall i :: 0 <= i < n ==> Bit(x, i) == Bit(y, i)
    ensures x == y
  {
    if n > 0 {
      forall i | 0 <= i < n - 1
        ensures Bit(x / 2, i) == Bit(y / 2, i)
      {
        assert Bit(x, i + 1) == Bit(y, i + 1);
      }
      BitsDetermineValue(x / 2, y / 2, n - 1);
      assert Bit(x, 0) == Bit(y, 0);
    }
  }

  /** Halving and then dividing by p is dividing by 2p. */
  lemma HalveThenDivide(x: nat, p: nat)
    requires p > 0
    ensures (x / 2) / p == x / (2 * p)
    ensures (x % (2 * p)) / 2 == (x / 2) % p
  {
    var q, t := (x / 2) / p, (x / 2) % p;
    assert x == 2 * p * q + (2 * t + x % 2);
    DivisionUnique(x, 2 * p, q, 2 * t + x % 2);
  }

  /** x >> m, one bit at a time. */
  function Shr(x: nat, m: nat): nat
  {
    if m == 0 then x else Shr(x / 2, m - 1)
  }

  /** Shifting right by m is dividing by 2^m. */
  lemma {:induction false} ShrIsDivision(x: nat, m: nat)
    ensures Shr(x, m) == x / Pow2(m)
  {
    if m > 0 {
      var p := Pow2(m - 1);
      ShrIsDivision(x / 2, m - 1);
      HalveThenDivide(x, p);
      assert x / Pow2(m) == (x / 2) / p;
    }
  }

  /** Bit k of x shifted right by m is bit k + m of x. */
  lemma {:induction false} BitOfShift(x: nat, m: nat, k: nat)
    ensures Bit(Shr(x, m), k) == Bit(x, k + m)
  {
    if m > 0 {
      BitOfShift(x / 2, m - 1, k);
      assert Bit(x, k + m) == Bit(x / 2, k + m - 1);
    }
  }

  /** The low n bits of x are the bits of x mod 2^n. */
  lemma {:induction false} BitOfResidue(x: nat, n: nat, k: nat)
    requires k < n
    ensures Bit(x % Pow2(n), k) == Bit(x, k)
  {
    var p := Pow2(n - 1);
    var q, t := x / (2 * p), x % (2 * p);
    assert x == 2 * (p * q + t / 2) + t % 2;
    DivisionUnique(x, 2, p * q + t / 2, t % 2);
    if k > 0 {
      HalveThenDivide(x, p);
      BitOfResidue(x / 2, n - 1, k - 1);
    }
  }

  /** Bit k of the high byte of x is bit k + 8 of x. */
  lemma HighByteBit(x: nat, k: nat)
    ensures Bit(x / 0x100, k) == Bit(x, k + 8)
  {
    BitOfShift(x, 8, k);
    ShrIsDivision(x, 8);
    Pow2Values();
  }

  /** The low byte of x keeps the low eight bits of x. */
  lemma LowByteBit(x: nat, k: nat)
    requires k < 8
    ensures Bit(x % 0x100, k) == Bit(x, k)
  {
    BitOfResidue(x, 8, k);
    Pow2Values();
  }

  /** OR with zero keeps an n-bit value. */
  lemma {:induction false} OrWithZero(b: nat, n: nat)
    requires b < Pow2(n)
    ensures Bitwise(OrOp, 0, b, n) == b
  {
    if n > 0 {
      OrWithZero(b / 2, n - 1);
    }
  }

  /** OR of a value below 2^m with a multiple of 2^m is their sum: the
      fields do not overlap. */
  lemma {:induction false} OrOfDisjointFields(lo: nat, hi: nat, m: nat, n: nat)
    requires m <= n && lo < Pow2(m) && hi < Pow2(n - m)
    ensures Bitwise(OrOp, lo, hi * Pow2(m), n) == hi * Pow2(m) + lo
  {
    if m == 0 {
      OrWithZero(hi, n);
    } else {
      var h := hi * Pow2(m - 1);
      assert hi * Pow2(m) == 2 * h;
      OrOfDisjointFields(lo / 2, hi, m - 1, n - 1);
    }
  }
}
