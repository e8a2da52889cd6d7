/** Arithmetic the controller borrows from C#: integer division truncates
    toward zero, a float-to-int cast truncates toward zero, and the two
    percentage helpers are written out over exact reals (no IEEE rounding). */
module Numeric {

  function Abs(x: int): nat {
    if x < 0 then -x else x
  }

  function MaxReal(a: real, b: real): real {
    if a > b then a else b
  }

  /** `(value * percent) / 100` on C# ints: the quotient is truncated toward zero,
      so a non-negative product rounds down and a negative one rounds up. */
  function IntPercent(value: int, percent: int): (r: int)
    ensures 0 <= value * percent ==> 0 <= r && 100 * r <= value * percent < 100 * r + 100
    ensures value * percent < 0 ==> r <= 0 && 100 * r - 100 < value * percent <= 100 * r
  {
    var product := value * percent;
    if product >= 0 then product / 100 else -((-product) / 100)
  }

  /** The C# cast `(int)x` of a floating value: drops the fractional part,
      which is rounding down for x >= 0 and rounding up for x < 0. */
  function TruncateToInt(x: real): (n: int)
    ensures 0.0 <= x ==> 0 <= n && n as real <= x < n as real + 1.0
    ensures x < 0.0 ==> n <= 0 && n as real - 1.0 < x <= n as real
  {
    if x >= 0.0 then x.Floor else -((-x).Floor)
  }

  /** `baseNumber + (percent / 100) * baseNumber`: the increase is exactly
      `percent` percent of the base. */
  function AddPercent(baseNumber: real, percent: int): (r: real)
    ensures (r - baseNumber) * 100.0 == percent as real * baseNumber
    ensures 0.0 <= baseNumber && 0 <= percent ==> baseNumber <= r
  {
    baseNumber + (percent as real / 100.0) * baseNumber
  }

  /** `baseNumber - (percent / 100) * baseNumber`: the decrease is exactly
      `percent` percent of the base. */
  function RemovePercent(baseNumber: real, percent: int): (r: real)
    ensures (baseNumber - r) * 100.0 == percent as real * baseNumber
    ensures 0.0 <= baseNumber && 0 <= percent ==> r <= baseNumber
  {
    baseNumber - (percent as real / 100.0) * baseNumber
  }
}
