/**
 * GST breakup of one line item: tax-exclusive or tax-inclusive amounts,
 * split into CGST + SGST within a state or charged as IGST across states,
 * every amount rounded half-up to two decimals.
 */
module GstCalculator {
  import opened Wrappers
  import opened Money

  /** All monetary fields in hundredths of a rupee, all rates in hundredths of a percent. */
  datatype GstBreakup = GstBreakup(
    taxableValue: int,
    cgstRate: int,
    sgstRate: int,
    igstRate: int,
    cgstAmount: int,
    sgstAmount: int,
    igstAmount: int,
    totalTax: int,
    totalAmount: int)

  /** The two `ValueError`s `calculate_gst` raises. */
  datatype GstError = RateOutOfRange | UnsupportedMode

  const Exclusive: string := "exclusive"
  const Inclusive: string := "inclusive"

  /** The unrounded taxable value, or None for an unsupported mode. */
  function TaxableValue(amount: real, rate: real, mode: string): Option<real>
    requires 0.0 <= rate
  {
    if mode == Exclusive then Some(amount)
    else if mode == Inclusive then Some(amount / (1.0 + rate / 100.0))
    else None
  }

  /** The unrounded tax on a taxable value at a percentage rate. */
  function ExactTax(taxable: real, rate: real): real
  {
    taxable * rate / 100.0
  }

  function CalculateGst(baseAmount: real, gstRate: real, interstate: bool, mode: string): (r: Result<GstBreakup, GstError>)
    ensures r == Err(RateOutOfRange) <==> gstRate < 0.0 || gstRate > 100.0
    ensures r == Err(UnsupportedMode) <==> 0.0 <= gstRate <= 100.0 && mode != Exclusive && mode != Inclusive
    ensures r.Ok? ==> r.value.totalTax == r.value.cgstAmount + r.value.sgstAmount + r.value.igstAmount
    ensures r.Ok? && interstate ==>
      r.value.cgstAmount == 0 && r.value.sgstAmount == 0 && r.value.cgstRate == 0 && r.value.sgstRate == 0
      && r.value.igstRate == RoundHalfUp(gstRate)
    ensures r.Ok? && !interstate ==>
      r.value.igstAmount == 0 && r.value.igstRate == 0
      && r.value.cgstAmount == r.value.sgstAmount && r.value.cgstRate == r.value.sgstRate
      && r.value.cgstRate == RoundHalfUp(gstRate / 2.0)
    ensures r.Ok? ==> r.value.taxableValue == RoundHalfUp(TaxableValue(baseAmount, gstRate, mode).value)
    ensures r.Ok? && interstate ==>
      r.value.igstAmount == RoundHalfUp(ExactTax(TaxableValue(baseAmount, gstRate, mode).value, gstRate))
    ensures r.Ok? && !interstate ==>
      r.value.cgstAmount == RoundHalfUp(ExactTax(TaxableValue(baseAmount, gstRate, mode).value, gstRate) / 2.0)
    ensures r.Ok? && mode == Exclusive ==>
      r.value.taxableValue == RoundHalfUp(baseAmount)
      && r.value.totalAmount == r.value.taxableValue + r.value.totalTax
    ensures r.Ok? && mode == Inclusive ==> r.value.totalAmount == RoundHalfUp(baseAmount)
  {
    if gstRate < 0.0 || gstRate > 100.0 then Err(RateOutOfRange)
    else
      match TaxableValue(baseAmount, gstRate, mode)
      case None => Err(UnsupportedMode)
      case Some(taxable) =>
        var totalTax := ExactTax(taxable, gstRate);
        var cgst := if interstate then 0.0 else totalTax / 2.0;
        var sgst := if interstate then 0.0 else totalTax / 2.0;
        var igst := if interstate then totalTax else 0.0;
        var taxableR := RoundHalfUp(taxable);
        var cgstR := RoundHalfUp(cgst);
        var sgstR := RoundHalfUp(sgst);
        var igstR := RoundHalfUp(igst);
        RoundHalfUpExact(cgstR + sgstR + igstR);
        var totalTaxR := RoundHalfUp(FromCents(cgstR + sgstR + igstR));
        Ok(GstBreakup(
          taxableValue := taxableR,
          cgstRate := if interstate then 0 else RoundHalfUp(gstRate / 2.0),
          sgstRate := if interstate then 0 else RoundHalfUp(gstRate / 2.0),
          igstRate := if interstate then RoundHalfUp(gstRate) else 0,
          cgstAmount := cgstR,
          sgstAmount := sgstR,
          igstAmount := igstR,
          totalTax := totalTaxR,
          totalAmount := if mode == Exclusive then taxableR + totalTaxR else RoundHalfUp(baseAmount)))
  }

  /** In both modes the rounded total tax is within one paisa of the exact tax on the taxable value. */
  lemma TaxWithinOnePaisa(baseAmount: real, gstRate: real, interstate: bool, mode: string)
    requires CalculateGst(baseAmount, gstRate, interstate, mode).Ok?
    ensures var b := CalculateGst(baseAmount, gstRate, interstate, mode).value;
      var exact := TaxableValue(baseAmount, gstRate, mode).value * gstRate / 100.0 * 100.0;
      exact - 1.0 <= b.totalTax as real <= exact + 1.0
  {
    var taxable := TaxableValue(baseAmount, gstRate, mode).value;
    var totalTax := taxable * gstRate / 100.0;
    if !interstate {
      assert totalTax / 2.0 * 100.0 + totalTax / 2.0 * 100.0 == totalTax * 100.0;
    }
  }

  /** The rounded taxable value and the inclusive total are each within half a paisa of their exact values. */
  lemma RoundedWithinHalfPaisa(baseAmount: real, gstRate: real, interstate: bool, mode: string)
    requires CalculateGst(baseAmount, gstRate, interstate, mode).Ok?
    ensures var b := CalculateGst(baseAmount, gstRate, interstate, mode).value;
      var taxable := TaxableValue(baseAmount, gstRate, mode).value;
      taxable * 100.0 - 0.5 <= b.taxableValue as real <= taxable * 100.0 + 0.5
      && (mode == Inclusive ==> baseAmount * 100.0 - 0.5 <= b.totalAmount as real <= baseAmount * 100.0 + 0.5)
  {
  }

  /** Inclusive mode: the unrounded taxable value and tax add back up to the amount. */
  lemma InclusiveSplitsExactly(baseAmount: real, gstRate: real)
    requires 0.0 <= gstRate
    ensures var taxable := TaxableValue(baseAmount, gstRate, Inclusive).value;
      taxable + taxable * gstRate / 100.0 == baseAmount
  {
    var d := 1.0 + gstRate / 100.0;
    var taxable := baseAmount / d;
    assert taxable * d == baseAmount;
    assert taxable * d == taxable + taxable * gstRate / 100.0;
    assert TaxableValue(baseAmount, gstRate, Inclusive).value == taxable;
  }

  /** The first docstring example: 18% on 1000.00, exclusive, within a state. */
  lemma ExclusiveIntraStateExample()
    ensures CalculateGst(1000.0, 18.0, false, Exclusive)
      == Ok(GstBreakup(100000, 900, 900, 0, 9000, 9000, 0, 18000, 118000))
  {
    assert RoundHalfUp(1000.0) == 100000;
    assert RoundHalfUp(90.0) == 9000;
    assert RoundHalfUp(9.0) == 900;
    assert RoundHalfUp(180.0) == 18000;
  }

  /** The second docstring example: 18% included in 1180.00, across states. */
  lemma InclusiveInterStateExample()
    ensures CalculateGst(1180.0, 18.0, true, Inclusive)
      == Ok(GstBreakup(100000, 0, 0, 1800, 0, 0, 18000, 18000, 118000))
  {
    assert 1180.0 / (1.0 + 18.0 / 100.0) == 1000.0;
    assert RoundHalfUp(1000.0) == 100000;
    assert RoundHalfUp(180.0) == 18000;
    assert RoundHalfUp(18.0) == 1800;
    assert RoundHalfUp(1180.0) == 118000;
  }
}
