/**
 * `deriveLowStock`: the inventory records at or below their reorder level,
 * scaled by a factor. The record type lives in the product service, which
 * is not part of this model; only the two fields read here are kept.
 */
module LowStock {
  import opened Wrappers
  import opened Seqs

  /** A stock record; `reorderLevel` is `None` when it is missing or `null`. */
  datatype InventoryRecord = InventoryRecord(id: nat, onHand: real, reorderLevel: Option<real>)

  /** The factor used when none is given. */
  const DefaultFactor: real := 1.0

  /** `r.on_hand <= (r.reorder_level || 0) * factor`. */
  predicate IsLow(r: InventoryRecord, factor: real)
  {
    r.onHand <= r.reorderLevel.GetOr(0.0) * factor
  }

  /** The low records, in their original order. */
  function DeriveLowStock(records: seq<InventoryRecord>, factor: Option<real>): (low: seq<InventoryRecord>)
    ensures |low| <= |records|
    ensures forall r :: r in low ==> r in records && IsLow(r, factor.GetOr(DefaultFactor))
    ensures forall r :: r in records && IsLow(r, factor.GetOr(DefaultFactor)) ==> r in low
  {
    Filter(records, (r: InventoryRecord) => IsLow(r, factor.GetOr(DefaultFactor)))
  }

  /** A record without a reorder level is low only when nothing is on hand. */
  lemma MissingLevelMeansEmpty(r: InventoryRecord, factor: real)
    requires r.reorderLevel.None?
    ensures IsLow(r, factor) <==> r.onHand <= 0.0
  {
  }

  /** With non-negative reorder levels, a larger factor flags every record a smaller one flags. */
  lemma LargerFactorFlagsMore(records: seq<InventoryRecord>, f1: real, f2: real)
    requires f1 <= f2
    requires forall r :: r in records ==> r.reorderLevel.GetOr(0.0) >= 0.0
    ensures forall r :: r in DeriveLowStock(records, Some(f1)) ==> r in DeriveLowStock(records, Some(f2))
  {
    forall r | r in DeriveLowStock(records, Some(f1)) ensures r in DeriveLowStock(records, Some(f2)) {
      var lvl := r.reorderLevel.GetOr(0.0);
      assert lvl * f1 <= lvl * f2 by {
        assert lvl * (f2 - f1) >= 0.0;
      }
    }
  }

  /** Selecting from two lists joined is selecting from each in turn: the selection keeps the records' order. */
  lemma LowStockOfAppend(a: seq<InventoryRecord>, b: seq<InventoryRecord>, factor: Option<real>)
    ensures DeriveLowStock(a + b, factor) == DeriveLowStock(a, factor) + DeriveLowStock(b, factor)
  {
    FilterAppend(a, b, (r: InventoryRecord) => IsLow(r, factor.GetOr(DefaultFactor)));
  }
}
