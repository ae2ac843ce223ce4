/**
 * Rust's `i64` and `i32` and the three operations the conversion check
 * applies to them: wrapping subtraction, division that truncates toward
 * zero, and bitwise OR on the two's-complement representation.
 */
module Int64 {

  const MIN: int := -0x8000_0000_0000_0000
  const MAX: int := 0x7FFF_FFFF_FFFF_FFFF
  const MODULUS: int := 0x1_0000_0000_0000_0000

  type I64 = x: int | MIN <= x <= MAX
  type I32 = x: int | -0x8000_0000 <= x <= 0x7FFF_FFFF

  /** Reduces an exact integer to the `i64` with the same value modulo 2^64. */
  function Wrap(x: int): (r: I64)
    ensures (x - r) % MODULUS == 0
    ensures MIN <= x <= MAX ==> r == x
  {
    var k := (x - MIN) / MODULUS;
    assert x - MIN == k * MODULUS + (x - MIN) % MODULUS;
    (x - MIN) % MODULUS + MIN
  }

  /**
   * `a - b` on `i64` in a release build: two's-complement wrap-around
   * instead of the overflow panic of a debug build.
   */
  function WrappingSub(a: I64, b: I64): (r: I64)
    ensures MIN <= a - b <= MAX ==> r == a - b
    ensures r == a - b || r == a - b + MODULUS || r == a - b - MODULUS
  {
    var r := Wrap(a - b);
    assert (a - b - r) % MODULUS == 0;
    r
  }

  /**
   * Rust's `a / 100` on integers: the quotient is rounded toward zero, so
   * the remainder takes the sign of the dividend (Dafny's `/` is Euclidean).
   */
  function Div100(a: int): (q: int)
    ensures a >= 0 ==> 0 <= a - 100 * q < 100
    ensures a < 0 ==> 0 <= 100 * q - a < 100
  {
    if a >= 0 then a / 100 else -((-a) / 100)
  }

  /** The truncated quotient is the only integer whose remainder has the dividend's sign and is below the divisor. */
  lemma Div100Unique(a: int, q: int)
    requires a >= 0 ==> 0 <= a - 100 * q < 100
    requires a < 0 ==> 0 <= 100 * q - a < 100
    ensures q == Div100(a)
  {
  }

  /** Where truncating and Euclidean division differ: a negative dividend that is not a multiple of 100. */
  lemma Div100VersusEuclid(a: int)
    ensures a >= 0 ==> Div100(a) == a / 100
    ensures a < 0 && a % 100 != 0 ==> Div100(a) == a / 100 + 1
    ensures a < 0 && a % 100 == 0 ==> Div100(a) == a / 100
  {
  }

  function Pow2(n: nat): (p: nat)
    ensures p >= 1
  {
    if n == 0 then 1 else 2 * Pow2(n - 1)
  }

  lemma {:induction false} Pow2Add(m: nat, n: nat)
    ensures Pow2(m + n) == Pow2(m) * Pow2(n)
  {
    if m > 0 {
      Pow2Add(m - 1, n);
    }
  }

  lemma Pow2Of64()
    ensures Pow2(64) == MODULUS
  {
    assert Pow2(4) == 16;
    Pow2Add(4, 4);
    assert Pow2(8) == 0x100;
    Pow2Add(8, 8);
    assert Pow2(16) == 0x1_0000;
    Pow2Add(16, 16);
    assert Pow2(32) == 0x1_0000_0000;
    Pow2Add(32, 32);
  }

  /** The low `width` bits of `a | b` for non-negative `a` and `b`, one bit at a time. */
  function OrBits(a: nat, b: nat, width: nat): (r: nat)
    ensures r < Pow2(width)
  {
    if width == 0 then 0
    else 2 * OrBits(a / 2, b / 2, width - 1) + (if a % 2 == 1 || b % 2 == 1 then 1 else 0)
  }

  /** OR with zero keeps every number that fits in the width. */
  lemma {:induction false} OrBitsZero(a: nat, width: nat)
    requires a < Pow2(width)
    ensures OrBits(a, 0, width) == a
  {
    if width > 0 {
      OrBitsZero(a / 2, width - 1);
    }
  }

  /** The 64-bit two's-complement pattern of an `i64`, read as an unsigned number. */
  function ToUnsigned(x: I64): (u: nat)
    ensures u < MODULUS
    ensures x >= 0 <==> u < 0x8000_0000_0000_0000
  {
    if x >= 0 then x else x + MODULUS
  }

  /** The `i64` whose two's-complement pattern is `u`. */
  function FromUnsigned(u: nat): (x: I64)
    requires u < MODULUS
    ensures ToUnsigned(x) == u
  {
    if u < 0x8000_0000_0000_0000 then u else u - MODULUS
  }

  /** Rust's `|` on `i64`: bitwise OR of the two's-complement patterns; `x | 0` is `x`. */
  function Or(x: I64, y: I64): (r: I64)
    ensures y == 0 ==> r == x
  {
    Pow2Of64();
    OrBitsZero(ToUnsigned(x), 64);
    FromUnsigned(OrBits(ToUnsigned(x), ToUnsigned(y), 64))
  }
}
