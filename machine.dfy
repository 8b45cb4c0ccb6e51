/** The AVR target's integer types and the bit operations the driver performs
    on its 8-bit I/O registers (PORTA, PINA, DDRA). */
module Machine {

  /** C `short` and `int` on the AVR target: 16-bit two's complement. */
  type Int16 = x: int | -0x8000 <= x < 0x8000

  /** C `long` on the AVR target: 32-bit two's complement. */
  type Int32 = x: int | -0x8000_0000 <= x < 0x8000_0000

  /** `(1 << k)` for pin k of an 8-bit port (MaskIsShift). */
  function Mask(k: nat): bv8
    requires k < 8
  {
    match k
    case 0 => 0x01
    case 1 => 0x02
    case 2 => 0x04
    case 3 => 0x08
    case 4 => 0x10
    case 5 => 0x20
    case 6 => 0x40
    case 7 => 0x80
  }

  /** The pin mask is the shift `1 << k`, and no two pins share a mask. */
  lemma MaskIsShift(k: nat)
    requires k < 8
    ensures Mask(k) == (1 as bv8) << k
    ensures forall j :: 0 <= j < 8 && j != k ==> Mask(j) & Mask(k) == 0
  {
  }

  /** `p | (1 << k)`: pin k driven high. */
  function SetBit(p: bv8, k: nat): bv8
    requires k < 8
  {
    p | Mask(k)
  }

  /** `p & ~(1 << k)`: pin k driven low. */
  function ClearBit(p: bv8, k: nat): bv8
    requires k < 8
  {
    p & !Mask(k)
  }

  /** SetBit drives exactly pin k high: pin k reads 1 and every other pin is as it was. */
  lemma SetBitChangesOnlyPin(p: bv8, k: nat)
    requires k < 8
    ensures SetBit(p, k) & Mask(k) == Mask(k)
    ensures SetBit(p, k) & !Mask(k) == p & !Mask(k)
  {
  }

  /** ClearBit drives exactly pin k low: pin k reads 0 and every other pin is as it was. */
  lemma ClearBitChangesOnlyPin(p: bv8, k: nat)
    requires k < 8
    ensures ClearBit(p, k) & Mask(k) == 0
    ensures ClearBit(p, k) & !Mask(k) == p & !Mask(k)
  {
  }

  /** Raising a pin after lowering it is the same as raising it. */
  lemma SetAfterClear(p: bv8, k: nat)
    requires k < 8
    ensures SetBit(ClearBit(p, k), k) == SetBit(p, k)
  {
  }

  /** Lowering a pin that is already low changes nothing. */
  lemma ClearTwice(p: bv8, k: nat)
    requires k < 8
    ensures ClearBit(ClearBit(p, k), k) == ClearBit(p, k)
  {
  }

  /** Raising pin j and then lowering pins k and j leaves both low: the raise is undone. */
  lemma ClearUndoesSet(p: bv8, j: nat, k: nat)
    requires j < 8 && k < 8
    ensures ClearBit(ClearBit(SetBit(p, j), k), j) == ClearBit(ClearBit(p, k), j)
  {
  }

  /** Lowering pin j again after lowering j and k changes nothing. */
  lemma ClearAgain(p: bv8, j: nat, k: nat)
    requires j < 8 && k < 8
    ensures ClearBit(ClearBit(ClearBit(p, j), k), j) == ClearBit(ClearBit(p, j), k)
  {
  }

  /** What PINA shows while PORTA holds `latch`. Each line's read-back depends
      on the level its own pin drives: a pin driven high reads its bit of
      `highReads`, a pin driven low its bit of `lowReads`. A healthy line reads
      1 and 0; a line stuck high reads 1 and 1, stuck low 0 and 0, inverted 0 and 1. */
  function ReadBack(latch: bv8, highReads: bv8, lowReads: bv8): bv8
  {
    (latch & highReads) | (!latch & lowReads)
  }

  /** A healthy port (every line reads high when driven high and low when driven low)
      reads back the latch. */
  lemma ReadBackHealthy(p: bv8)
    ensures ReadBack(p, 0xFF, 0x00) == p
  {
  }

  /** A line stuck high reads back high both after being raised and after being lowered:
      lowering it is detected as a failure, raising it is not. */
  lemma StuckHighLine(p: bv8, k: nat)
    requires k < 8
    ensures ReadBack(SetBit(p, k), 0xFF, 0xFF) & Mask(k) != 0
    ensures ReadBack(ClearBit(p, k), 0xFF, 0xFF) & Mask(k) != 0
  {
  }

  /** 2 to the power k. */
  function Pow2(k: nat): (p: nat)
    ensures p >= 1
  {
    if k == 0 then 1 else 2 * Pow2(k - 1)
  }

  /** On the eight pins of a port, 2^k is the value of the pin mask `1 << k`. */
  lemma {:induction false} Pow2IsMask(k: nat)
    requires k < 8
    ensures Pow2(k) == Mask(k) as int
  {
    if k > 0 {
      Pow2IsMask(k - 1);
    }
  }

  /** `v & (1 << k)` is non-zero: bit k of the two's-complement value v, which is
      the parity of v shifted right (rounding down) by k places. */
  predicate BitSet(v: int, k: nat)
  {
    (v / Pow2(k)) % 2 == 1
  }

  /** For a byte, BitSet is the bit-vector test `x & (1 << k) != 0`. */
  lemma {:induction false} BitSetByte(x: bv8, k: nat)
    requires k < 8
    ensures BitSet(x as int, k) <==> x & Mask(k) != 0
  {
    HalveByte(x);
    if k > 0 {
      var h := x >> 1;
      assert Pow2(k) == 2 * Pow2(k - 1);
      DivDiv(x as int, Pow2(k - 1));
      assert BitSet(x as int, k) == BitSet(h as int, k - 1);
      BitSetByte(h, k - 1);
      ShiftedMask(x, k);
    }
  }

  /** Bit k of x is bit k - 1 of x shifted right by one. */
  lemma ShiftedMask(x: bv8, k: nat)
    requires 0 < k < 8
    ensures (x >> 1) & Mask(k - 1) != 0 <==> x & Mask(k) != 0
  {
  }

  /** Bits 0..7 of any integer are those of its low byte, negative integers included:
      two's complement agrees with the remainder modulo 256. */
  lemma LowBitsOfLowByte(v: int, k: nat)
    requires k < 8
    ensures BitSet(v, k) <==> BitSet(v % 0x100, k)
  {
    Pow2Split(k);
    ShiftParity(v, Pow2(k), Pow2(7 - k));
  }

  /** When 256 is p times an even number, the bit that division by p brings to the
      bottom is the same for v and for its low byte. */
  lemma ShiftParity(v: int, p: int, e: int)
    requires p >= 1 && e >= 1 && p * 2 * e == 0x100
    ensures (v / p) % 2 == ((v % 0x100) / p) % 2
  {
    var q, b := v / 0x100, v % 0x100;
    var m := q * 2 * e + b / p;
    assert p * (q * 2 * e) == q * (p * 2 * e);
    assert p * m == p * (q * 2 * e) + p * (b / p);
    assert v == p * m + b % p;
    DivModUnique(v, p, m, b % p);
    var h := q * e + (b / p) / 2;
    assert m == 2 * h + (b / p) % 2;
    DivModUnique(m, 2, h, (b / p) % 2);
  }

  /** Bit k of an integer is bit k of the byte x that holds its low eight bits. */
  lemma BitSetLowByte(v: int, x: bv8, k: nat)
    requires k < 8 && x as int == v % 0x100
    ensures BitSet(v, k) <==> x & Mask(k) != 0
  {
    LowBitsOfLowByte(v, k);
    BitSetByte(x, k);
  }

  /** 256 is 2^k times an even power of two, for each of the eight bit positions. */
  lemma {:induction false} Pow2Split(k: nat)
    requires k < 8
    ensures Pow2(k) * 2 * Pow2(7 - k) == 0x100
  {
    if k > 0 {
      Pow2Split(k - 1);
      assert Pow2(k) == 2 * Pow2(k - 1);
      assert Pow2(8 - k) == 2 * Pow2(7 - k);
    } else {
      assert Pow2(7) == 128;
    }
  }

  /** The lowest bit of a byte is its parity, and shifting right halves it. */
  lemma HalveByte(x: bv8)
    ensures (x as int) % 2 == 1 <==> x & 1 != 0
    ensures ((x >> 1) as int) == (x as int) / 2
  {
  }

  /** Dividing by 2b is halving and then dividing by b. */
  lemma DivDiv(a: int, b: nat)
    requires b >= 1
    ensures a / (2 * b) == (a / 2) / b
  {
    var q, r := (a / 2) / b, (a / 2) % b;
    assert a / 2 == q * b + r;
    assert a == (2 * b) * q + (2 * r + a % 2);
    DivModUnique(a, 2 * b, q, 2 * r + a % 2);
  }

  /** Euclidean division by d is unique: a quotient and an in-range remainder determine it. */
  lemma DivModUnique(a: int, d: int, q: int, r: int)
    requires d > 0 && 0 <= r < d && a == q * d + r
    ensures a / d == q && a % d == r
  {
    var q', r' := a / d, a % d;
    assert (q' - q) * d == r - r';
    MultipleBound(q' - q, d);
  }

  /** A non-zero multiple of d is at least d away from zero. */
  lemma MultipleBound(k: int, d: int)
    requires d > 0
    ensures k == 0 || k * d >= d || k * d <= -d
  {
    if k > 0 {
      assert (k - 1) * d >= 0;
    } else if k < 0 {
      assert (-k - 1) * d >= 0;
    }
  }

  /** C's integer `/`, which truncates toward zero: the remainder `a - q * b` has
      the sign of the dividend and is smaller than the divisor, which fixes q. */
  function CDiv(a: int, b: int): (q: int)
    requires b > 0
    ensures a >= 0 ==> 0 <= a - q * b < b
    ensures a < 0 ==> -b < a - q * b <= 0
  {
    if a >= 0 then a / b else -((-a) / b)
  }

  /** Conversion of an integer to the 16-bit `int` of the AVR target: the low 16 bits are kept. */
  function ToInt16(x: int): (r: Int16)
    ensures (x - r) % 0x1_0000 == 0
    ensures -0x8000 <= x < 0x8000 ==> r == x
  {
    (x + 0x8000) % 0x1_0000 - 0x8000
  }
}
