/**
 * Exact decimal amounts and their rounding to hundredths. Amounts are `real`
 * (Python's `Decimal` with 28 significant digits is treated as exact); a
 * rounded amount is an `int` number of hundredths (paise, or hundredths of a
 * percentage point for rates).
 */
module Money {
  /** The exact value of a whole number of hundredths. */
  function FromCents(c: int): real
  {
    c as real / 100.0
  }

  /** `quantize(Decimal('0.01'), rounding=ROUND_HALF_UP)`: nearest hundredth, ties away from zero. */
  function RoundHalfUp(x: real): (c: int)
    ensures x * 100.0 - 0.5 <= c as real <= x * 100.0 + 0.5
    ensures c as real == x * 100.0 + 0.5 ==> x > 0.0
    ensures c as real == x * 100.0 - 0.5 ==> x < 0.0
  {
    if x >= 0.0 then (x * 100.0 + 0.5).Floor else -((-x) * 100.0 + 0.5).Floor
  }

  /** `quantize(Decimal('0.01'))` with the default context: nearest hundredth, ties to even. */
  function RoundHalfEven(x: real): (c: int)
    ensures x * 100.0 - 0.5 <= c as real <= x * 100.0 + 0.5
    ensures (c as real == x * 100.0 + 0.5 || c as real == x * 100.0 - 0.5) ==> c % 2 == 0
  {
    var f := (x * 100.0).Floor;
    var d := x * 100.0 - f as real;
    if d < 0.5 then f
    else if d > 0.5 then f + 1
    else if f % 2 == 0 then f else f + 1
  }

  /** Rounding an amount that already has two decimals changes nothing. */
  lemma RoundHalfUpExact(c: int)
    ensures RoundHalfUp(FromCents(c)) == c
  {
  }

  lemma RoundHalfEvenExact(c: int)
    ensures RoundHalfEven(FromCents(c)) == c
  {
  }

  /** Half-up rounding is symmetric around zero. */
  lemma RoundHalfUpOdd(x: real)
    ensures RoundHalfUp(-x) == -RoundHalfUp(x)
  {
  }

  /** Half-up rounding is monotone. */
  lemma RoundHalfUpMonotone(x: real, y: real)
    requires x <= y
    ensures RoundHalfUp(x) <= RoundHalfUp(y)
  {
  }

  /** The two rounding rules differ only on exact ties. */
  lemma RoundingRulesAgreeOffTies(x: real)
    requires (x * 100.0 + 0.5).Floor as real != x * 100.0 + 0.5
    ensures RoundHalfUp(x) == RoundHalfEven(x)
  {
  }
}
