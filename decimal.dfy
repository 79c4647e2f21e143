/** `java.math.BigDecimal` as an unscaled integer and a scale: the number unscaled × 10^-scale. */
module Decimal {
  import opened Digits

  datatype Decimal = Decimal(unscaled: int, scale: int)

  /** `BigDecimal.ONE`: unscaled 1, scale 0. */
  const One: Decimal := Decimal(1, 0)

  /** `BigDecimal.valueOf(0.0)`, built from the text "0.0": unscaled 0, scale 1. */
  const ValueOfZeroPointZero: Decimal := Decimal(0, 1)

  /** `BigDecimal.valueOf(1.0)`, built from the text "1.0": unscaled 10, scale 1. */
  const ValueOfOnePointZero: Decimal := Decimal(10, 1)

  function Pow10(n: nat): (p: nat)
    ensures p >= 1
  {
    if n == 0 then 1 else 10 * Pow10(n - 1)
  }

  /** The number a decimal denotes, whatever its scale. */
  function Value(d: Decimal): real {
    if d.scale >= 0 then d.unscaled as real / Pow10(d.scale) as real
    else (d.unscaled * Pow10(-d.scale)) as real
  }

  /** `BigDecimal.compareTo`: -1, 0 or 1 by numeric value; the scale plays no part. */
  function CompareTo(a: Decimal, b: Decimal): int {
    if Value(a) < Value(b) then -1 else if Value(a) == Value(b) then 0 else 1
  }

  function Zeros(n: nat): (s: string)
    ensures |s| == n && AllDigits(s)
  {
    if n == 0 then "" else "0" + Zeros(n - 1)
  }

  /** `BigDecimal.toString`: plain notation when the scale is not negative and the adjusted
      exponent is at least -6, scientific notation ("1.5E+3", "1E-7") otherwise. */
  function ToString(d: Decimal): string {
    var coefficient := NatToString(if d.unscaled < 0 then -d.unscaled else d.unscaled);
    var sign := if d.unscaled < 0 then "-" else "";
    var adjusted := -d.scale + (|coefficient| - 1);
    if d.scale == 0 then
      sign + coefficient
    else if d.scale > 0 && adjusted >= -6 then
      if |coefficient| > d.scale then
        sign + coefficient[..|coefficient| - d.scale] + "." + coefficient[|coefficient| - d.scale..]
      else
        sign + "0." + Zeros(d.scale - |coefficient|) + coefficient
    else
      sign + coefficient[..1] + (if |coefficient| > 1 then "." + coefficient[1..] else "")
      + "E" + (if adjusted < 0 then "-" else "+") + NatToString(if adjusted < 0 then -adjusted else adjusted)
  }

  /** A decimal of scale 0 prints exactly as its integer does. */
  lemma ToStringOfInteger(n: int)
    ensures ToString(Decimal(n, 0)) == IntToString(n)
  {
  }

  /** `BigDecimal.ONE` prints as "1" and `new BigDecimal("1.0")` as "1.0". */
  lemma ToStringOfOne()
    ensures ToString(One) == "1"
    ensures ToString(Decimal(10, 1)) == "1.0"
  {
    assert NatToString(10) == "10";
  }
}
