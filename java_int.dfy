/** Java's fixed-width integers and its remainder operator, written out over
    Dafny's unbounded `int`. */
module JavaInt {

  const INT32_MIN: int := -0x8000_0000
  const INT32_MAX: int := 0x7FFF_FFFF
  const SHORT_MIN: int := -0x8000  // Short.MIN_VALUE
  const SHORT_MAX: int := 0x7FFF   // Short.MAX_VALUE

  /** A Java `int`. */
  type int32 = x: int | -0x8000_0000 <= x <= 0x7FFF_FFFF

  /** A Java `short`, one signed 16-bit PCM sample. */
  type int16 = x: int | -0x8000 <= x <= 0x7FFF

  /** Java's `int` addition `a + b`: the exact sum when it fits, otherwise the
      sum shifted by 2^32 back into range (two's-complement wrap-around). */
  function AddInt(a: int32, b: int32): (r: int32)
    ensures INT32_MIN <= a + b <= INT32_MAX ==> r == a + b
    ensures INT32_MAX < a + b ==> r == a + b - 0x1_0000_0000 < 0
    ensures a + b < INT32_MIN ==> r == a + b + 0x1_0000_0000 >= 0
  {
    if a + b > INT32_MAX then a + b - 0x1_0000_0000
    else if a + b < INT32_MIN then a + b + 0x1_0000_0000
    else a + b
  }

  /** The wrapped sum is the unique `int` congruent to the exact sum modulo
      2^32. */
  lemma AddIntCongruent(a: int32, b: int32, r: int32)
    ensures (a + b - AddInt(a, b)) % 0x1_0000_0000 == 0
    ensures (a + b - r) % 0x1_0000_0000 == 0 ==> r == AddInt(a, b)
  {
  }

  /** Java's `a % n` for a positive divisor: the remainder takes the sign of
      the dividend (division truncates towards zero), where Dafny's `%` is
      never negative. */
  function JavaRem(a: int, n: int): (r: int)
    requires n > 0
    ensures -n < r < n
    ensures 0 <= a ==> r == a % n
    ensures a <= 0 ==> r <= 0 && (-r) == (-a) % n
  {
    if a >= 0 then a % n else -((-a) % n)
  }
}
