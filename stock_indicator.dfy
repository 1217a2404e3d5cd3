/**
 * The stock level badge and bar of a product: low, medium or high against
 * the reorder level, and the bar's fill percentage.
 */
module StockIndicator {
  datatype Level = Low | Medium | High

  /** `reorderLevel = 0` when the prop is omitted. */
  function ReorderLevel(given: real, omitted: bool): real
  {
    if omitted then 0.0 else given
  }

  /** Low at or below the reorder level, medium below twice it, high from there. */
  function LevelOf(quantity: real, reorderLevel: real): (l: Level)
    ensures l == Low <==> quantity <= reorderLevel
    ensures l == Medium <==> reorderLevel < quantity < reorderLevel * 2.0
    ensures l == High <==> quantity > reorderLevel && quantity >= reorderLevel * 2.0
  {
    if quantity <= reorderLevel then Low
    else if quantity < reorderLevel * 2.0 then Medium
    else High
  }

  /** The badge text. */
  function Label(quantity: real, reorderLevel: real): (s: string)
    ensures s == "Low Stock" <==> LevelOf(quantity, reorderLevel) == Low
  {
    if quantity <= reorderLevel then "Low Stock" else "In Stock"
  }

  /** The bar: `min(100, quantity / (3 * reorderLevel) * 100)`, and full when the reorder level is 0. */
  function Percent(quantity: real, reorderLevel: real): (pct: real)
    ensures pct <= 100.0
    ensures reorderLevel == 0.0 ==> pct == 100.0
    ensures reorderLevel > 0.0 && quantity >= 0.0 ==> 0.0 <= pct
  {
    var raw := if reorderLevel != 0.0 then quantity / (reorderLevel * 3.0) * 100.0 else 100.0;
    if raw < 100.0 then raw else 100.0
  }

  /**
   * With a positive reorder level the bar agrees with the badge: a low
   * product fills at most a third of it, a medium one less than two thirds,
   * a high one at least two thirds.
   */
  lemma BarMatchesLevel(quantity: real, reorderLevel: real)
    requires reorderLevel > 0.0
    ensures LevelOf(quantity, reorderLevel) == Low ==> Percent(quantity, reorderLevel) * 3.0 <= 100.0
    ensures LevelOf(quantity, reorderLevel) == Medium ==> Percent(quantity, reorderLevel) * 3.0 < 200.0
    ensures LevelOf(quantity, reorderLevel) == High ==> Percent(quantity, reorderLevel) * 3.0 >= 200.0
  {
    var raw := quantity / (reorderLevel * 3.0) * 100.0;
    var t := raw * 3.0;
    assert t * reorderLevel == quantity * 100.0;
    ScaleCompare(t, reorderLevel, quantity);
  }

  /** From `t * r == q * 100` with `r > 0`: how `t` compares with 100 and 200 follows how `q` compares with `r` and `2r`. */
  lemma ScaleCompare(t: real, r: real, q: real)
    requires r > 0.0 && t * r == q * 100.0
    ensures q <= r ==> t <= 100.0
    ensures q < r * 2.0 ==> t < 200.0
    ensures q >= r * 2.0 ==> t >= 200.0
  {
    assert (t - 100.0) * r == (q - r) * 100.0;
    assert (t - 200.0) * r == (q - r * 2.0) * 100.0;
    SignOfProduct(t - 100.0, r);
    SignOfProduct(t - 200.0, r);
  }

  /** With `r > 0`, `x * r` has the sign of `x`. */
  lemma SignOfProduct(x: real, r: real)
    requires r > 0.0
    ensures x * r <= 0.0 ==> x <= 0.0
    ensures x * r < 0.0 ==> x < 0.0
    ensures x * r >= 0.0 ==> x >= 0.0
  {
  }

  /** Without a reorder level, any stock above zero is high and nothing above zero is low. */
  lemma NoReorderLevel(quantity: real)
    ensures LevelOf(quantity, ReorderLevel(0.0, true)) == (if quantity <= 0.0 then Low else High)
    ensures Percent(quantity, ReorderLevel(0.0, true)) == 100.0
  {
  }
}
