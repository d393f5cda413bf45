/**
 * Fixed-width integer arithmetic of the Rust source.
 *
 * An `i32` is an `int` in the 32-bit two's-complement range; `isize` and
 * `usize` (64 bits on the platforms the finder targets) are both modelled by
 * their common bit pattern, a `bv64`, on which `+`, `*` and `^` wrap modulo
 * 2^64 exactly as the release build of the source does.  Dafny's `>>` on a
 * bit-vector is the zero-filling shift of `usize`; the sign-preserving shift
 * of `isize` is written out below.
 */
module FixedWidth {

  const I32_MIN: int := -0x8000_0000
  const I32_MAX: int := 0x7FFF_FFFF

  /** A Rust `i32`. */
  type int32 = x: int | I32_MIN <= x <= I32_MAX

  /** The numeric range of a Rust `isize` on a 64-bit target. */
  type int64 = x: int | -0x8000_0000_0000_0000 <= x < 0x8000_0000_0000_0000

  /** `x as u32`: the two's-complement bit pattern of an `i32`. */
  function Bits32(x: int32): bv32
  {
    if x < 0 then (x + 0x1_0000_0000) as bv32 else x as bv32
  }

  /** `b as i32`: reads a 32-bit pattern as a two's-complement number. */
  function Signed32(b: bv32): (x: int32)
    ensures b >> 31 == 0 ==> x == b as int
    ensures b >> 31 == 1 ==> x == b as int - 0x1_0000_0000
  {
    if (b as int) < 0x8000_0000 then b as int else b as int - 0x1_0000_0000
  }

  /** `b as isize` read as a number: a 64-bit pattern in two's complement. */
  function Signed64(b: bv64): (x: int64)
    ensures b >> 63 == 0 ==> x == b as int
    ensures b >> 63 == 1 ==> x == b as int - 0x1_0000_0000_0000_0000
  {
    if b < 0x8000_0000_0000_0000 then
      assert b >> 63 == 0;
      b as int
    else
      assert b >> 63 == 1;
      b as int - 0x1_0000_0000_0000_0000
  }

  /** `v as u32` (and `v as i32` before reading the number) on a 64-bit value: keeps the low 32 bits. */
  function Truncate32(v: bv64): (b: bv32)
    ensures b as bv64 == v & 0xFFFF_FFFF
  {
    (v & 0xFFFF_FFFF) as bv32
  }

  /** `(b as i32) as isize`: sign extension of a 32-bit pattern to 64 bits. */
  function SignExtend(b: bv32): (r: bv64)
    ensures Truncate32(r) == b
    ensures r >> 31 == (if b >> 31 == 1 then 0x1_FFFF_FFFF else 0)
  {
    if b >> 31 == 1 then (b as bv64) | 0xFFFF_FFFF_0000_0000 else b as bv64
  }

  /**
   * `l >> 16` on an `isize`: the arithmetic (sign-copying) shift.  The low 47
   * bits of the result are bits 16..62 of `l`, and the 17 bits above them are
   * all copies of the sign bit of `l`.
   */
  function ShiftRightArith16(l: bv64): (r: bv64)
    ensures r & 0x7FFF_FFFF_FFFF == (l >> 16) & 0x7FFF_FFFF_FFFF
    ensures r >> 47 == (if l >> 63 == 1 then 0x1_FFFF else 0)
  {
    if l >> 63 == 1 then !((!l) >> 16) else l >> 16
  }

  /** A 64-bit pattern whose top 17 bits agree is a 48-bit signed number. */
  lemma SignedOf48Bits(b: bv64)
    requires b >> 47 == 0 || b >> 47 == 0x1_FFFF
    ensures -0x8000_0000_0000 <= Signed64(b) < 0x8000_0000_0000
  {
    if b >> 47 == 0 {
      assert b < 0x8000_0000_0000;
    } else {
      assert b >= 0xFFFF_8000_0000_0000;
    }
  }

  /** After the sign-preserving shift by 16, a 64-bit value read as a number lies in [-2^47, 2^47). */
  lemma ArithShiftRange(l: bv64)
    ensures -0x8000_0000_0000 <= Signed64(ShiftRightArith16(l)) < 0x8000_0000_0000
  {
    SignedOf48Bits(ShiftRightArith16(l));
  }

  /**
   * `i32::abs` on a bit pattern, as the release build runs it: a negative
   * value is negated in two's complement, so `abs(i32::MIN)` wraps back to
   * `i32::MIN`.  Every other result is non-negative and has the magnitude of
   * the argument.
   */
  function Abs32(b: bv32): (r: bv32)
    ensures r >> 31 == 0 || r == 0x8000_0000
    ensures r == b || r == -b
    ensures r == 0x8000_0000 <==> b == 0x8000_0000
  {
    if b >> 31 == 1 then -b else b
  }

  /** Rust's `/` on integers: division truncated toward zero. */
  function Quot(a: int, b: int): int
    requires b > 0
  {
    if a >= 0 then a / b else -((-a) / b)
  }

  /**
   * Rust's `%` on integers: the remainder left by `Quot`, so it takes the sign
   * of the dividend (`-3 % 2 == -1`) where Dafny's `%` never goes negative.
   */
  function Rem(a: int, b: int): (r: int)
    requires b > 0
    ensures a == b * Quot(a, b) + r
    ensures a >= 0 ==> 0 <= r < b
    ensures a < 0 ==> -b < r <= 0
  {
    if a >= 0 then a % b else -((-a) % b)
  }

  /** `a + b` on two `i32` values in the release build: wraps modulo 2^32. */
  function WrappingAdd(a: int32, b: int32): (r: int32)
    ensures (a + b - r) % 0x1_0000_0000 == 0
    ensures I32_MIN <= a + b <= I32_MAX ==> r == a + b
  {
    var s := a + b;
    if s > I32_MAX then s - 0x1_0000_0000
    else if s < I32_MIN then s + 0x1_0000_0000
    else s
  }

  /** Rust's remainder of a non-negative value or of `i32::MIN` by 2 or 4 lies in `0..m`. */
  lemma {:induction false} RemRange(v: int, m: int)
    requires v >= 0 || v == I32_MIN
    requires m == 2 || m == 4
    ensures 0 <= Rem(v, m) < m
  {
    if v < 0 {
      assert -v == 0x8000_0000 == m * (0x8000_0000 / m);
    }
  }

  /** Euclidean remainder by 2 of `2 * k + s`. */
  lemma ModTwo(k: int, s: int)
    requires 0 <= s < 2
    ensures (2 * k + s) % 2 == s
  {
  }

  /** On a non-negative value or `i32::MIN`, Rust's remainder by 2 is the parity of the remainder by 4. */
  lemma {:induction false} RemParity(v: int)
    requires v >= 0 || v == I32_MIN
    ensures Rem(v, 2) == Rem(v, 4) % 2
  {
    if v >= 0 {
      var r := v % 4;
      var k := 2 * (v / 4) + r / 2;
      assert v == 2 * k + r % 2;
      ModTwo(k, r % 2);
      assert Rem(v, 4) == r && Rem(v, 2) == v % 2;
    } else {
      assert Rem(v, 2) == 0 && Rem(v, 4) == 0;
    }
  }
}
