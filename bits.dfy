/**
 * Fixed-width integer ranges and bit helpers shared by the register codec
 * and the driver model.  C++ `uint8_t` and `uint32_t` values that are used as
 * numbers are modelled as bounded integers; register words and bytes that are
 * used as bit patterns are modelled as `bv32` and `bv8`.
 */
module Bits {

  /** The range of a C++ `uint8_t`. */
  type u8 = x: int | 0 <= x < 0x100

  /** The range of a C++ `uint32_t`. */
  type u32 = x: int | 0 <= x < 0x1_0000_0000

  const U32_MODULUS: int := 0x1_0000_0000

  /** Unsigned 32-bit increment, wrapping at 2^32 as `uint32_t` does. */
  function Inc32(x: u32): (r: u32)
    ensures x < U32_MODULUS - 1 ==> r == x + 1
    ensures x == U32_MODULUS - 1 ==> r == 0
  {
    (x + 1) % U32_MODULUS
  }

  /** The bit pattern of a `uint8_t` number. */
  function ByteOf(x: u8): (b: bv8)
    ensures (b <= 0x7F) == (x <= 0x7F)
  {
    x as bv8
  }

  /** The `uint8_t` number a bit pattern stands for. */
  function CodeOf(b: bv8): (x: u8)
    ensures (b <= 0x7F) == (x <= 0x7F)
  {
    b as int
  }

  // The two conversions are inverse to each other.  They are stated as
  // lemmas, to be called where needed: facts mixing bit patterns and
  // integers slow down every proof they are visible in.

  lemma ByteOfCode(b: bv8)
    ensures ByteOf(CodeOf(b)) == b
  {
  }

  lemma CodeOfSucc(b: bv8)
    requires b < 0xFF
    ensures CodeOf(b + 1) == CodeOf(b) + 1
  {
  }

  /** Every `uint8_t` number is the number of some bit pattern, found by counting up from 0. */
  lemma {:induction false} CodeOfOnto(x: u8) returns (b: bv8)
    ensures CodeOf(b) == x
    decreases x
  {
    if x == 0 {
      b := 0;
    } else {
      var p := CodeOfOnto(x - 1);
      CodeOfSucc(p);
      b := p + 1;
    }
  }

  lemma CodeOfByte(x: u8)
    ensures CodeOf(ByteOf(x)) == x
  {
    var b := CodeOfOnto(x);
    ByteOfCode(b);
  }

  /** Bit `i` of a byte is set. */
  predicate BitSet(b: bv8, i: nat)
    requires i < 8
  {
    b & ((1 as bv8) << i) != 0
  }

  /** `b` with bit `i` set to `on`. */
  function WithBit(b: bv8, i: nat, on: bool): bv8
    requires i < 8
  {
    var bit := (1 as bv8) << i;
    if on then b | bit else b & !bit
  }

  lemma WithBitAt(b: bv8, i: nat, on: bool, j: nat)
    requires i < 8 && j < 8
    ensures BitSet(WithBit(b, i, on), j) == if j == i then on else BitSet(b, j)
  {
    var bit, bj := (1 as bv8) << i, (1 as bv8) << j;
    if j != i {
      assert bit & bj == 0;
    }
  }

  /** `WithBit` sets bit `i` as asked and keeps the other seven bits. */
  lemma WithBitBits(b: bv8, i: nat, on: bool)
    requires i < 8
    ensures BitSet(WithBit(b, i, on), i) == on
    ensures forall j: nat :: j < 8 && j != i ==> BitSet(WithBit(b, i, on), j) == BitSet(b, j)
  {
    WithBitAt(b, i, on, i);
    forall j: nat | j < 8 && j != i
      ensures BitSet(WithBit(b, i, on), j) == BitSet(b, j)
    {
      WithBitAt(b, i, on, j);
    }
  }

  /** Number of set bits among bits 0 .. n-1 of `b`. */
  function CountBits(b: bv8, n: nat): nat
    requires n <= 8
  {
    if n == 0 then 0 else CountBits(b, n - 1) + (if BitSet(b, n - 1) then 1 else 0)
  }

  /** Number of set bits of a byte. */
  function PopCount(b: bv8): nat
  {
    CountBits(b, 8)
  }

  /** The bit positions below `n` that are set in `b`. */
  function SetBits(b: bv8, n: nat): set<nat>
    requires n <= 8
  {
    set i: nat | i < n && BitSet(b, i)
  }

  lemma {:induction false} CountBitsBound(b: bv8, n: nat)
    requires n <= 8
    ensures CountBits(b, n) <= n
  {
    if n > 0 {
      CountBitsBound(b, n - 1);
    }
  }

  /** `CountBits` counts exactly the set positions below `n`. */
  lemma {:induction false} CountBitsIsCardinality(b: bv8, n: nat)
    requires n <= 8
    ensures CountBits(b, n) == |SetBits(b, n)|
  {
    if n > 0 {
      CountBitsIsCardinality(b, n - 1);
      SetBitsStep(b, n);
    }
  }

  /** The set positions below `n` are those below `n - 1`, and `n - 1` if it is set. */
  lemma SetBitsStep(b: bv8, n: nat)
    requires 0 < n <= 8
    ensures |SetBits(b, n)| == |SetBits(b, n - 1)| + (if BitSet(b, n - 1) then 1 else 0)
  {
    var low, top := SetBits(b, n - 1), if BitSet(b, n - 1) then {n - 1} else {};
    forall i | i in SetBits(b, n)
      ensures i in low + top
    {
    }
    assert SetBits(b, n) == low + top;
    assert low !! top;
  }

  /** `CountBits` is zero exactly when no position below `n` is set. */
  lemma {:induction false} CountBitsZero(b: bv8, n: nat)
    requires n <= 8
    ensures CountBits(b, n) == 0 <==> forall i: nat :: i < n ==> !BitSet(b, i)
  {
    if n > 0 {
      CountBitsZero(b, n - 1);
    }
  }

  /** A byte is zero exactly when none of its eight bits is set. */
  lemma ZeroIffNoBitSet(b: bv8)
    ensures b == 0 <==> forall i: nat :: i < 8 ==> !BitSet(b, i)
  {
    if b != 0 {
      assert BitSet(b, 0) || BitSet(b, 1) || BitSet(b, 2) || BitSet(b, 3)
          || BitSet(b, 4) || BitSet(b, 5) || BitSet(b, 6) || BitSet(b, 7);
    }
  }

  lemma PopCountBounds(b: bv8)
    ensures PopCount(b) <= 8
    ensures PopCount(b) == |SetBits(b, 8)|
    ensures PopCount(b) == 0 <==> b == 0
  {
    CountBitsBound(b, 8);
    CountBitsIsCardinality(b, 8);
    CountBitsZero(b, 8);
    ZeroIffNoBitSet(b);
  }
}
