/** 64-bit words as natural numbers, with the overflow behaviour of the Rust integer
    operators written out, and the Option type shared by the other modules. */
module Words {

  const TWO64: nat := 0x1_0000_0000_0000_0000
  const U64_MAX: nat := 0xffff_ffff_ffff_ffff

  type U64 = x: nat | x <= 0xffff_ffff_ffff_ffff
  type Byte = x: nat | x < 256
  type Bytes = seq<Byte>

  datatype Option<+T> = None | Some(value: T)

  function Min(a: nat, b: nat): nat {
    if a <= b then a else b
  }

  function Max(a: nat, b: nat): nat {
    if a >= b then a else b
  }

  function SaturatingAdd(a: U64, b: U64): U64 {
    Min(a + b, U64_MAX)
  }

  function SaturatingSub(a: U64, b: U64): U64 {
    if a >= b then a - b else 0
  }

  function SaturatingMul(a: U64, b: U64): U64 {
    Min(a * b, U64_MAX)
  }

  function WrappingAdd(a: U64, b: U64): U64 {
    (a + b) % TWO64
  }

  function WrappingMul(a: U64, b: U64): U64 {
    (a * b) % TWO64
  }

  function Pow2(k: nat): (p: nat)
    ensures p > 0
  {
    if k == 0 then 1 else 2 * Pow2(k - 1)
  }

  /** Bitwise exclusive or: binary digits are added without carry. */
  function Xor(a: nat, b: nat): nat
    decreases a + b
  {
    if a == 0 then b
    else if b == 0 then a
    else 2 * Xor(a / 2, b / 2) + (a + b) % 2
  }

  /** Exclusive or acts digit by digit, also when one operand is zero. */
  lemma {:induction false} XorDigits(a: nat, b: nat)
    ensures Xor(a, b) % 2 == (a + b) % 2
    ensures Xor(a, b) / 2 == Xor(a / 2, b / 2)
  {
    if a != 0 && b != 0 {
      var rest := Xor(a / 2, b / 2);
      assert Xor(a, b) == 2 * rest + (a + b) % 2;
      hide Xor;
      LowDigit(rest, (a + b) % 2);
    }
  }

  lemma LowDigit(rest: nat, digit: nat)
    requires digit < 2
    ensures (2 * rest + digit) % 2 == digit && (2 * rest + digit) / 2 == rest
  {
  }

  /** No digit beyond the operands' widths is ever set. */
  lemma {:induction false} XorWidth(a: nat, b: nat, width: nat)
    requires a < Pow2(width) && b < Pow2(width)
    ensures Xor(a, b) < Pow2(width)
    decreases width
  {
    if width > 0 {
      XorDigits(a, b);
      XorWidth(a / 2, b / 2, width - 1);
    }
  }

  lemma Pow2Is64()
    ensures Pow2(64) == TWO64
  {
    assert Pow2(8) == 256;
    assert Pow2(16) == 65536;
    assert Pow2(24) == 0x100_0000;
    assert Pow2(32) == 0x1_0000_0000;
    assert Pow2(40) == 0x100_0000_0000;
    assert Pow2(48) == 0x1_0000_0000_0000;
    assert Pow2(56) == 0x100_0000_0000_0000;
  }

  function XorWord(a: U64, b: U64): U64 {
    assert Xor(a, b) < TWO64 by {
      Pow2Is64();
      XorWidth(a, b, 64);
    }
    Xor(a, b)
  }

  // ---------------------------------------------------------------- quotients

  lemma ProductMonotone(a: nat, b: nat, d: nat)
    ensures a <= b ==> a * d <= b * d
  {
    if a <= b {
      assert b * d == a * d + (b - a) * d;
    }
  }

  lemma QuotientBound(q: nat, x: nat, d: nat)
    requires d > 0 && q * d <= x
    ensures q <= x / d
  {
    var r := x / d;
    assert x < r * d + d;
    ProductMonotone(r + 1, q, d);
    assert (r + 1) * d == r * d + d;
  }

  lemma QuotientMonotone(x: nat, y: nat, d: nat)
    requires x <= y && d > 0
    ensures x / d <= y / d
  {
    QuotientBound(x / d, y, d);
  }

  lemma QuotientAntitone(x: nat, d: nat, e: nat)
    requires 0 < d <= e
    ensures x / e <= x / d
  {
    var q := x / e;
    ProductMonotone(d, e, q);
    assert q * e <= x;
    QuotientBound(q, x, d);
  }

  // ---------------------------------------------------------------- invertible word operations

  /** Shifting right drops the lowest digit `k` times. */
  function ShiftRight(x: nat, k: nat): (r: nat)
    ensures r <= x
    decreases x, k
  {
    if k == 0 then x else ShiftRight(x / 2, k - 1)
  }

  lemma {:induction false} ShiftOfHalf(x: nat, k: nat)
    ensures ShiftRight(x, k) / 2 == ShiftRight(x / 2, k)
    decreases k
  {
    if k > 0 {
      ShiftOfHalf(x / 2, k - 1);
    }
  }

  function XorShiftRight(x: U64, k: nat): U64 {
    XorWord(x, ShiftRight(x, k))
  }

  /** Xor with a shifted copy loses no information: the digits come back from the top. */
  lemma {:induction false} XorShiftInjective(x: nat, y: nat, k: nat)
    requires k > 0 && Xor(x, ShiftRight(x, k)) == Xor(y, ShiftRight(y, k))
    ensures x == y
    decreases x + y
  {
    if x + y > 0 {
      var s, t := ShiftRight(x, k), ShiftRight(y, k);
      assert s == ShiftRight(x / 2, k - 1) && t == ShiftRight(y / 2, k - 1);
      hide Xor, ShiftRight;
      XorDigits(x, s);
      XorDigits(y, t);
      ShiftOfHalf(x, k);
      ShiftOfHalf(y, k);
      XorShiftInjective(x / 2, y / 2, k);
      assert s == t && (x + s) % 2 == (y + s) % 2;
      SameParity(x, y, s);
    }
  }

  lemma SameParity(x: nat, y: nat, s: nat)
    requires (x + s) % 2 == (y + s) % 2
    ensures x % 2 == y % 2
  {
  }

  /** An odd multiplier, or any with an inverse modulo 2^64, only annihilates multiples of 2^64. */
  lemma Cancel(d: int, t: int, m: int, inverse: int, q: int)
    requires m * inverse == 1 + q * TWO64
    requires d * m == t * TWO64 && d < TWO64 && 0 < d + TWO64
    ensures d == 0
  {
    var u := t * inverse - d * q;
    assert d * (m * inverse) == (d * m) * inverse == (t * TWO64) * inverse == (t * inverse) * TWO64;
    assert d * (1 + q * TWO64) == d + (d * q) * TWO64;
    assert d == u * TWO64;
  }

  lemma SameRemainder(a: nat, b: nat)
    requires a % TWO64 == b % TWO64
    ensures a - b == (a / TWO64 - b / TWO64) * TWO64
  {
  }

  lemma MulInjective(x: U64, y: U64, m: U64, inverse: U64, q: nat)
    requires m * inverse == 1 + q * TWO64
    requires WrappingMul(x, m) == WrappingMul(y, m)
    ensures x == y
  {
    SameRemainder(x * m, y * m);
    assert (x - y) * m == x * m - y * m;
    Cancel(x - y, x * m / TWO64 - y * m / TWO64, m, inverse, q);
  }

  lemma AddInjective(x: U64, y: U64, d: U64)
    requires WrappingAdd(x, d) == WrappingAdd(y, d)
    ensures x == y
  {
    SameRemainder(x + d, y + d);
  }

  lemma WrapOnce(a: nat, d: nat)
    ensures (a % TWO64 + d) % TWO64 == (a + d) % TWO64
  {
    var q, r := a / TWO64, a % TWO64;
    assert a + d == q * TWO64 + (r + d);
    RemainderShift(r + d, q);
  }

  lemma RemainderShift(x: nat, q: nat)
    ensures (q * TWO64 + x) % TWO64 == x % TWO64
  {
  }

  // ---------------------------------------------------------------- finite sets

  lemma SubsetOfSameSize<T>(a: set<T>, b: set<T>)
    requires a <= b && |b| <= |a|
    ensures a == b
  {
    assert b == a + (b - a);
  }
}
