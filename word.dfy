/**
 * Unsigned and signed 64-bit machine words (Rust's `u64` and `i64`) on
 * unbounded integers, with the operations the interpreter and the bus use:
 * two's-complement casts between the two, wrapping addition, saturating
 * subtraction and the bitwise operators `&`, `|`, `^` and `!`.
 *
 * `&`, `|` and `^` are defined bit by bit on natural numbers and `!` by
 * arithmetic (2^64 - 1 - a); `Bit(x, i)` is the reference meaning ("bit i of
 * x") against which all four are proved.
 */
module Word {

  const TWO64: int := 0x1_0000_0000_0000_0000
  const TWO63: int := 0x8000_0000_0000_0000

  /** Rust `u64`, also the width of a register (XLEN = 64). */
  type u64 = x: int | 0 <= x < TWO64

  /** Rust `i64`, the type in which immediates reach the instruction functions. */
  type i64 = x: int | -TWO63 <= x < TWO63

  // ---------------------------------------------------------------------------
  // Powers of two and bits

  function Pow2(n: nat): (p: nat)
    ensures p >= 1
  {
    if n == 0 then 1 else 2 * Pow2(n - 1)
  }

  lemma {:induction false} Pow2Add(a: nat, b: nat)
    ensures Pow2(a + b) == Pow2(a) * Pow2(b)
    decreases a
  {
    if a > 0 {
      Pow2Add(a - 1, b);
    }
  }

  lemma Pow2Of64()
    ensures Pow2(63) == TWO63
    ensures Pow2(64) == TWO64
  {
    assert Pow2(8) == 256;
    Pow2Add(8, 8);
    Pow2Add(16, 16);
    Pow2Add(32, 31);
    Pow2Add(32, 32);
  }

  /** Bit `i` of `x`, bit 0 being the least significant one. */
  predicate Bit(x: nat, i: nat)
    decreases i
  {
    if i == 0 then x % 2 == 1 else Bit(x / 2, i - 1)
  }

  /** No bit at or above position `n` is set in a number below 2^n. */
  lemma {:induction false} BitAbove(x: nat, n: nat, i: nat)
    requires x < Pow2(n) && n <= i
    ensures !Bit(x, i)
    decreases i
  {
    if i > 0 {
      if n == 0 {
        assert x == 0 && x / 2 == 0;
        BitAbove(x / 2, 0, i - 1);
      } else {
        BitAbove(x / 2, n - 1, i - 1);
      }
    }
  }

  /** Two numbers below 2^n that agree on their n low bits are equal. */
  lemma {:induction false} BitsDetermine(x: nat, y: nat, n: nat)
    requires x < Pow2(n) && y < Pow2(n)
    requires forall i: nat :: i < n ==> Bit(x, i) == Bit(y, i)
    ensures x == y
    decreases n
  {
    if n > 0 {
      forall i: nat | i < n - 1
        ensures Bit(x / 2, i) == Bit(y / 2, i)
      {
        assert Bit(x, i + 1) == Bit(y, i + 1);
      }
      BitsDetermine(x / 2, y / 2, n - 1);
      assert Bit(x, 0) == Bit(y, 0);
    }
  }

  /** The top bit of an n-bit number is set exactly when it is at least 2^(n-1). */
  lemma {:induction false} TopBit(x: nat, n: nat)
    requires 0 < n && x < Pow2(n)
    ensures Bit(x, n - 1) <==> x >= Pow2(n - 1)
    decreases n
  {
    if n > 1 {
      TopBit(x / 2, n - 1);
    }
  }

  // ---------------------------------------------------------------------------
  // Casts between u64 and i64

  /** `x as u64` for an `i64` x: the same 64-bit pattern read as unsigned. */
  function I64ToU64(x: i64): (r: u64)
    ensures x >= 0 ==> r == x
    ensures x < 0 ==> r == x + TWO64
  {
    x % TWO64
  }

  /** `x as i64` for a `u64` x: bit 63 becomes the sign, the pattern is kept. */
  function U64ToI64(x: u64): (r: i64)
    ensures r % TWO64 == x
    ensures r < 0 <==> Bit(x, 63)
  {
    Pow2Of64();
    TopBit(x, 64);
    if x < TWO63 then x else x - TWO64
  }

  /** The two casts are inverse to each other, in both directions. */
  lemma CastRoundTrip(x: i64, u: u64)
    ensures U64ToI64(I64ToU64(x)) == x
    ensures I64ToU64(U64ToI64(u)) == u
  {
  }

  /**
   * Signed order of two words: with equal sign bits it is the unsigned order;
   * with different sign bits the word with bit 63 set is the smaller one,
   * although it is the larger one unsigned.
   */
  lemma SignedOrder(a: u64, b: u64)
    ensures Bit(a, 63) == Bit(b, 63) ==> (U64ToI64(a) < U64ToI64(b) <==> a < b)
    ensures Bit(a, 63) && !Bit(b, 63) ==> U64ToI64(a) < U64ToI64(b) && b < a
  {
    Pow2Of64();
    TopBit(a, 64);
    TopBit(b, 64);
  }

  // ---------------------------------------------------------------------------
  // Arithmetic

  /** `a.wrapping_add(b)`: the sum, less 2^64 when it overflows. */
  function WrappingAdd(a: u64, b: u64): (r: u64)
    ensures a + b < TWO64 ==> r == a + b
    ensures a + b >= TWO64 ==> r == a + b - TWO64
  {
    (a + b) % TWO64
  }

  /** Adding a sign-extended immediate cast to u64 is addition modulo 2^64. */
  lemma WrappingAddImmediate(a: u64, imm: i64)
    ensures WrappingAdd(a, I64ToU64(imm)) == (a + imm) % TWO64
  {
  }

  /** `a.saturating_sub(b)`: the difference, or 0 when it would be negative. */
  function SaturatingSub(a: u64, b: u64): (r: u64)
    ensures r <= a
    ensures b <= a ==> r + b == a
    ensures a < b ==> r == 0
  {
    if a < b then 0 else a - b
  }

  // ---------------------------------------------------------------------------
  // Bitwise operators

  datatype BitOp = AndOp | OrOp | XorOp

  /** What a bitwise operator does to one pair of bits. */
  predicate Apply(op: BitOp, x: bool, y: bool)
  {
    match op
    case AndOp => x && y
    case OrOp => x || y
    case XorOp => x != y
  }

  /** `op` applied to the n low bits of a and b, least significant bit first. */
  function Bitwise(op: BitOp, a: nat, b: nat, n: nat): (r: nat)
    ensures r < Pow2(n)
    decreases n
  {
    if n == 0 then 0
    else 2 * Bitwise(op, a / 2, b / 2, n - 1) + (if Apply(op, a % 2 == 1, b % 2 == 1) then 1 else 0)
  }

  lemma {:induction false} BitwiseAt(op: BitOp, a: nat, b: nat, n: nat, i: nat)
    requires i < n
    ensures Bit(Bitwise(op, a, b, n), i) == Apply(op, Bit(a, i), Bit(b, i))
    decreases i
  {
    var rest := Bitwise(op, a / 2, b / 2, n - 1);
    var r := Bitwise(op, a, b, n);
    assert r / 2 == rest;
    if i > 0 {
      BitwiseAt(op, a / 2, b / 2, n - 1, i - 1);
    }
  }

  lemma BitwiseBits(op: BitOp, a: nat, b: nat, n: nat)
    ensures forall i: nat :: i < n ==> Bit(Bitwise(op, a, b, n), i) == Apply(op, Bit(a, i), Bit(b, i))
  {
    forall i: nat | i < n
      ensures Bit(Bitwise(op, a, b, n), i) == Apply(op, Bit(a, i), Bit(b, i))
    {
      BitwiseAt(op, a, b, n, i);
    }
  }

  /** `a & b` */
  function And(a: u64, b: u64): (r: u64)
    ensures forall i: nat :: i < 64 ==> (Bit(r, i) <==> Bit(a, i) && Bit(b, i))
  {
    Pow2Of64();
    BitwiseBits(AndOp, a, b, 64);
    Bitwise(AndOp, a, b, 64)
  }

  /** `a | b` */
  function Or(a: u64, b: u64): (r: u64)
    ensures forall i: nat :: i < 64 ==> (Bit(r, i) <==> Bit(a, i) || Bit(b, i))
  {
    Pow2Of64();
    BitwiseBits(OrOp, a, b, 64);
    Bitwise(OrOp, a, b, 64)
  }

  /** `a ^ b` */
  function Xor(a: u64, b: u64): (r: u64)
    ensures forall i: nat :: i < 64 ==> (Bit(r, i) <==> Bit(a, i) != Bit(b, i))
  {
    Pow2Of64();
    BitwiseBits(XorOp, a, b, 64);
    Bitwise(XorOp, a, b, 64)
  }

  /** Complementing an n-bit number flips each of its n bits. */
  lemma {:induction false} ComplementAt(x: nat, n: nat, i: nat)
    requires x < Pow2(n) && i < n
    ensures Bit(Pow2(n) - 1 - x, i) == !Bit(x, i)
    decreases i
  {
    var c := Pow2(n) - 1 - x;
    assert c == 2 * (Pow2(n - 1) - 1 - x / 2) + (1 - x % 2);
    if i > 0 {
      assert c / 2 == Pow2(n - 1) - 1 - x / 2;
      ComplementAt(x / 2, n - 1, i - 1);
    }
  }

  /** `!a`, the bitwise complement of a u64. */
  function Not(a: u64): (r: u64)
    ensures forall i: nat :: i < 64 ==> (Bit(r, i) <==> !Bit(a, i))
  {
    Pow2Of64();
    forall i: nat | i < 64
      ensures Bit(TWO64 - 1 - a, i) == !Bit(a, i)
    {
      ComplementAt(a, 64, i);
    }
    TWO64 - 1 - a
  }

  lemma {:induction false} ZeroHasNoBits(i: nat)
    ensures !Bit(0, i)
  {
    BitAbove(0, 0, i);
  }

  lemma OneHasOnlyBit0(i: nat)
    ensures Bit(1, i) <==> i == 0
  {
    if i > 0 {
      ZeroHasNoBits(i - 1);
    }
  }

  /** `x & !1` is x with its least significant bit cleared: x rounded down to even. */
  lemma ClearLowBit(x: u64)
    ensures And(x, Not(1)) == x - x % 2
  {
    Pow2Of64();
    var r := And(x, Not(1));
    var e := x - x % 2;
    forall i: nat | i < 64
      ensures Bit(r, i) == Bit(e, i)
    {
      OneHasOnlyBit0(i);
      if i > 0 {
        assert e / 2 == x / 2;
        assert Bit(e, i) == Bit(e / 2, i - 1);
        assert Bit(x, i) == Bit(x / 2, i - 1);
      }
    }
    BitsDetermine(r, e, 64);
  }

  /** `x & !1`, the form in which JALR clears bit 0 of its target. */
  function ClearBit0(x: u64): (r: u64)
    ensures r == x - x % 2
    ensures r % 2 == 0
  {
    ClearLowBit(x);
    OneHasOnlyBit0(0);
    And(x, Not(1))
  }

  /** XOR with the same mask twice restores the original word. */
  lemma XorInvolution(a: u64, b: u64)
    ensures Xor(Xor(a, b), b) == a
  {
    Pow2Of64();
    BitsDetermine(Xor(Xor(a, b), b), a, 64);
  }

  /** XOR with all ones (the immediate -1) is the complement. */
  lemma XorAllOnesIsNot(a: u64)
    ensures Xor(a, I64ToU64(-1)) == Not(a)
  {
    Pow2Of64();
    var ones := I64ToU64(-1);
    forall i: nat | i < 64
      ensures Bit(ones, i)
    {
      ZeroHasNoBits(i);
      assert ones == Not(0);
    }
    BitsDetermine(Xor(a, ones), Not(a), 64);
  }

  /** AND with all ones and OR with zero leave the word unchanged. */
  lemma AndOrIdentities(a: u64)
    ensures And(a, I64ToU64(-1)) == a
    ensures Or(a, 0) == a
  {
    Pow2Of64();
    var ones := I64ToU64(-1);
    forall i: nat | i < 64
      ensures Bit(ones, i) && !Bit(0, i)
    {
      ZeroHasNoBits(i);
      assert ones == Not(0);
    }
    BitsDetermine(And(a, ones), a, 64);
    BitsDetermine(Or(a, 0), a, 64);
  }

  /** Applying the same AND or OR mask a second time changes nothing. */
  lemma AndOrIdempotent(a: u64, b: u64)
    ensures And(And(a, b), b) == And(a, b)
    ensures Or(Or(a, b), b) == Or(a, b)
  {
    Pow2Of64();
    BitsDetermine(And(And(a, b), b), And(a, b), 64);
    BitsDetermine(Or(Or(a, b), b), Or(a, b), 64);
  }
}
