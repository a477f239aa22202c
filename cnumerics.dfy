/** The C and C++ numeric semantics the firmware relies on, written out over
    unbounded integers and exact reals: fixed-width integer ranges, the
    implicit wrap-around of a narrowing conversion, Arduino's `constrain`,
    float-to-integer truncation and C's `round`. The floating-point library
    functions (cos, log, sqrt, pow) are not modelled numerically: they are
    function values handed to the code that calls them. */
module CNumerics {

  const INT8_MIN: int := -128
  const INT8_MAX: int := 127
  const INT16_MIN: int := -32768
  const INT16_MAX: int := 32767
  const INT32_MIN: int := -0x8000_0000
  const INT32_MAX: int := 0x7FFF_FFFF
  const INT64_MIN: int := -0x8000_0000_0000_0000
  const INT64_MAX: int := 0x7FFF_FFFF_FFFF_FFFF

  type Int8 = x: int | -128 <= x <= 127
  type Int16 = x: int | -32768 <= x <= 32767
  type Int32 = x: int | -0x8000_0000 <= x <= 0x7FFF_FFFF
  type Int64 = x: int | -0x8000_0000_0000_0000 <= x <= 0x7FFF_FFFF_FFFF_FFFF

  /** The math library of the platform, left uninterpreted. */
  datatype Libm = Libm(cos: real -> real, sqrt: real -> real, log: real -> real, pow: (real, real) -> real)

  function Abs(x: int): nat
  {
    if x < 0 then -x else x
  }

  /** Conversion of an int to int16_t: reduction modulo 2^16 into the signed range. */
  function Wrap16(x: int): (r: Int16)
    ensures (x - r) % 0x1_0000 == 0
    ensures INT16_MIN <= x <= INT16_MAX ==> r == x
  {
    (x + 0x8000) % 0x1_0000 - 0x8000
  }

  /** Arduino's `constrain(x, lo, hi)`: lo if x < lo, else hi if x > hi, else x. */
  function Clamp(x: int, lo: int, hi: int): (r: int)
    requires lo <= hi
    ensures lo <= r <= hi
    ensures lo <= x <= hi ==> r == x
    ensures x < lo ==> r == lo
    ensures hi < x ==> r == hi
  {
    if x < lo then lo else if x > hi then hi else x
  }

  /** Conversion of a floating-point value to an integer type: truncation toward zero. */
  function Trunc(x: real): (r: int)
    ensures 0.0 <= x ==> 0 <= r && r as real <= x < r as real + 1.0
    ensures x < 0.0 ==> r <= 0 && r as real - 1.0 < x <= r as real
  {
    if x >= 0.0 then x.Floor else -((-x).Floor)
  }

  /** C's `round`: to the nearest integer, halfway cases away from zero. */
  function Round(x: real): (r: int)
    ensures 0.0 <= x ==> x - 0.5 < r as real <= x + 0.5
    ensures x < 0.0 ==> x - 0.5 <= r as real < x + 0.5
  {
    if x >= 0.0 then (x + 0.5).Floor else -((0.5 - x).Floor)
  }

  /** Truncation never increases the magnitude and keeps the sign (or gives 0). */
  lemma TruncShrinks(x: real)
    ensures Abs(Trunc(x)) as real <= if x < 0.0 then -x else x
    ensures x >= 0.0 ==> Trunc(x) >= 0
    ensures x <= 0.0 ==> Trunc(x) <= 0
  {
  }

  /** Truncation and rounding are the identity on integers. */
  lemma IntegralFixed(n: int)
    ensures Trunc(n as real) == n
    ensures Round(n as real) == n
  {
  }

  /** Rounding is within half a unit of its argument. */
  lemma RoundError(x: real)
    ensures -0.5 <= Round(x) as real - x <= 0.5
  {
  }

  /** Rounding preserves order (it is a monotone step function). */
  lemma RoundMonotone(x: real, y: real)
    requires x <= y
    ensures Round(x) <= Round(y)
  {
  }
}
