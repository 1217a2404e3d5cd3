/**
 * Sales invoices: totals folded from the invoice lines, and the payment
 * status state machine driven by `apply_payment`.
 *
 * Stored money fields are integers in paise (hundredths of a rupee); the
 * unrounded line arithmetic is exact `real`. Quantizing to 0.01 uses the
 * default decimal context, i.e. round-half-even.
 */
module AccountingModels {
  import opened Wrappers
  import opened Money
  import opened GstStateCodes

  datatype InvoiceStatus = Draft | Sent | Partial | Paid | Overdue | Cancelled

  datatype PaymentStatus = PsUnpaid | PsPartial | PsPaid | PsOverdue

  /** The tax components one line contributes, as computed by the breakdown helper. */
  datatype TaxSplit = TaxSplit(cgst: real, sgst: real, igst: real)

  /**
   * `calculate_gst_breakdown(line_subtotal, gst_rate, gst_type)`: its code is
   * not part of this model, so it is a parameter of every operation using it.
   */
  type Breakdown = (real, real, GstType) -> TaxSplit

  datatype ProductRef = ProductRef(hsnCode: string)

  /** An invoice line; `lineTotal` is derived when the line is saved. */
  datatype InvoiceLine = InvoiceLine(
    product: Option<ProductRef>,
    hsnCode: string,
    quantity: real,
    unitPrice: real,
    gstRate: real,
    lineTotal: real)

  function LineSubtotal(l: InvoiceLine): real
  {
    l.quantity * l.unitPrice
  }

  function AddSplit(a: TaxSplit, b: TaxSplit): TaxSplit
  {
    TaxSplit(a.cgst + b.cgst, a.sgst + b.sgst, a.igst + b.igst)
  }

  /** Sum of the line subtotals. */
  function SubtotalOf(lines: seq<InvoiceLine>): real
  {
    if lines == [] then 0.0 else SubtotalOf(lines[..|lines| - 1]) + LineSubtotal(lines[|lines| - 1])
  }

  /** Component-wise sum of the per-line tax breakdowns. */
  function TaxOf(lines: seq<InvoiceLine>, gstType: GstType, breakdown: Breakdown): TaxSplit
  {
    if lines == [] then TaxSplit(0.0, 0.0, 0.0)
    else
      var l := lines[|lines| - 1];
      AddSplit(TaxOf(lines[..|lines| - 1], gstType, breakdown), breakdown(LineSubtotal(l), l.gstRate, gstType))
  }

  /** The six stored totals, in paise. */
  datatype Totals = Totals(subtotal: int, cgst: int, sgst: int, igst: int, totalTax: int, grandTotal: int)

  /**
   * The totals `calculate_totals` stores: every figure is summed exactly and
   * quantized once, so `totalTax` and `grandTotal` round the exact sums, not
   * the sums of the rounded parts.
   */
  function ComputeTotals(lines: seq<InvoiceLine>, gstType: GstType, breakdown: Breakdown): (t: Totals)
    ensures var tax := TaxOf(lines, gstType, breakdown);
            && t.subtotal == RoundHalfEven(SubtotalOf(lines))
            && t.cgst == RoundHalfEven(tax.cgst)
            && t.sgst == RoundHalfEven(tax.sgst)
            && t.igst == RoundHalfEven(tax.igst)
            && t.totalTax == RoundHalfEven(tax.cgst + tax.sgst + tax.igst)
            && t.grandTotal == RoundHalfEven(SubtotalOf(lines) + (tax.cgst + tax.sgst + tax.igst))
  {
    var sub := SubtotalOf(lines);
    var tax := TaxOf(lines, gstType, breakdown);
    var totalTax := tax.cgst + tax.sgst + tax.igst;
    Totals(RoundHalfEven(sub), RoundHalfEven(tax.cgst), RoundHalfEven(tax.sgst),
           RoundHalfEven(tax.igst), RoundHalfEven(totalTax), RoundHalfEven(sub + totalTax))
  }

  /** The loop of `calculate_totals`: accumulate the subtotal and the three tax components line by line. */
  method AccumulateLines(lines: seq<InvoiceLine>, gstType: GstType, breakdown: Breakdown)
    returns (subtotal: real, tax: TaxSplit)
    ensures subtotal == SubtotalOf(lines)
    ensures tax == TaxOf(lines, gstType, breakdown)
  {
    subtotal := 0.0;
    tax := TaxSplit(0.0, 0.0, 0.0);
    var i := 0;
    while i < |lines|
      invariant 0 <= i <= |lines|
      invariant subtotal == SubtotalOf(lines[..i])
      invariant tax == TaxOf(lines[..i], gstType, breakdown)
    {
      var line := lines[i];
      var lineSubtotal := line.quantity * line.unitPrice;
      subtotal := subtotal + lineSubtotal;
      var br := breakdown(lineSubtotal, line.gstRate, gstType);
      tax := TaxSplit(tax.cgst + br.cgst, tax.sgst + br.sgst, tax.igst + br.igst);
      assert lines[..i + 1][..i] == lines[..i];
      i := i + 1;
    }
    assert lines[..|lines|] == lines;
  }

  /** With non-negative quantities and prices the subtotal is non-negative. */
  lemma {:induction false} SubtotalNonNegative(lines: seq<InvoiceLine>)
    requires forall i :: 0 <= i < |lines| ==> lines[i].quantity >= 0.0 && lines[i].unitPrice >= 0.0
    ensures SubtotalOf(lines) >= 0.0
  {
    if lines != [] {
      SubtotalNonNegative(lines[..|lines| - 1]);
      var l := lines[|lines| - 1];
      assert l.quantity * l.unitPrice >= 0.0;
    }
  }

  /** Because each figure is rounded on its own, the stored grand total may differ from subtotal plus total tax, but by at most one paisa. */
  lemma GrandTotalWithinOnePaisa(lines: seq<InvoiceLine>, gstType: GstType, breakdown: Breakdown)
    ensures var t := ComputeTotals(lines, gstType, breakdown);
            -1 <= t.grandTotal - (t.subtotal + t.totalTax) <= 1
  {
  }

  /**
   * `_update_payment_status`: the status derived from the amounts and the due
   * date, by the precedence UNPAID (nothing to pay), PAID, OVERDUE, PARTIAL,
   * UNPAID.
   */
  function DerivePaymentStatus(grandTotal: int, paid: int, due: Option<int>, today: int): (ps: PaymentStatus)
    ensures ps == PsPaid <==> grandTotal > 0 && paid >= grandTotal
    ensures ps == PsOverdue <==> 0 < grandTotal && paid < grandTotal && due.Some? && due.value < today
    ensures ps == PsPartial <==> 0 < paid < grandTotal && !(due.Some? && due.value < today)
    ensures ps == PsUnpaid <==> grandTotal <= 0 || (paid <= 0 && !(due.Some? && due.value < today))
  {
    var balance := grandTotal - paid;
    if grandTotal <= 0 then PsUnpaid
    else if balance <= 0 then PsPaid
    else if due.Some? && due.value < today then PsOverdue
    else if paid > 0 then PsPartial
    else PsUnpaid
  }

  /** The part of `_update_payment_status` that mirrors the payment status into `status`. */
  function MirrorStatus(status: InvoiceStatus, ps: PaymentStatus): (r: InvoiceStatus)
    ensures status == Cancelled ==> r == Cancelled
    ensures status != Cancelled && ps == PsPaid ==> r == Paid
    ensures status != Cancelled && ps == PsOverdue ==> r == Overdue
    ensures ps == PsPartial ==> r == (if status == Draft then Partial else status)
    ensures ps == PsUnpaid ==> r == status
  {
    if status == Cancelled then status
    else match ps
      case PsPaid => Paid
      case PsOverdue => Overdue
      case PsPartial => if status == Draft then Partial else status
      case PsUnpaid => status
  }

  /** Mirroring the same payment status twice changes nothing more. */
  lemma MirrorIdempotent(status: InvoiceStatus, ps: PaymentStatus)
    ensures MirrorStatus(MirrorStatus(status, ps), ps) == MirrorStatus(status, ps)
  {
  }

  /** Paying at least the outstanding balance of a positive invoice settles it. */
  lemma SettlingPaymentMakesPaid(grandTotal: int, paid: int, amount: int, due: Option<int>, today: int)
    requires grandTotal > 0 && amount > 0 && paid + amount >= grandTotal
    ensures DerivePaymentStatus(grandTotal, Min(paid + amount, grandTotal), due, today) == PsPaid
  {
  }

  function Min(a: int, b: int): int
  {
    if a <= b then a else b
  }

  /** `InvoiceLine.save`: copy the product's HSN code into a blank one and derive `line_total`. */
  function DeriveLine(l: InvoiceLine): (r: InvoiceLine)
    ensures r.lineTotal == LineSubtotal(l)
    ensures l.hsnCode != "" ==> r.hsnCode == l.hsnCode
    ensures l.hsnCode == "" && l.product.Some? ==> r.hsnCode == l.product.value.hsnCode
    ensures r.product == l.product && r.quantity == l.quantity && r.unitPrice == l.unitPrice && r.gstRate == l.gstRate
  {
    var hsn := if l.product.Some? && l.hsnCode == "" then l.product.value.hsnCode else l.hsnCode;
    l.(hsnCode := hsn, lineTotal := l.quantity * l.unitPrice)
  }

  /** Saving a line twice derives the same values as saving it once. */
  lemma DeriveLineIdempotent(l: InvoiceLine)
    ensures DeriveLine(DeriveLine(l)) == DeriveLine(l)
  {
  }

  /** The stored amount fields of an invoice. */
  datatype Amounts = Amounts(totals: Totals, paid: int, balance: int)

  class Invoice {
    var lines: seq<InvoiceLine>
    var gstType: GstType
    var dueDate: Option<int>
    var status: InvoiceStatus
    /** The `status` column as last written to the invoice's database row. */
    var savedStatus: InvoiceStatus
    var subtotal: int
    var cgstAmount: int
    var sgstAmount: int
    var igstAmount: int
    var totalTax: int
    var grandTotal: int
    var paidAmount: int
    var balanceAmount: int
    var paymentStatus: PaymentStatus
    var pdfGenerated: bool

    /** A fresh DRAFT invoice with no lines and every amount zero. */
    constructor (gstType: GstType, dueDate: Option<int>)
      ensures this.gstType == gstType && this.dueDate == dueDate
      ensures lines == [] && status == Draft && savedStatus == Draft && paymentStatus == PsUnpaid && !pdfGenerated
      ensures Stored() == Amounts(Totals(0, 0, 0, 0, 0, 0), 0, 0)
    {
      this.gstType := gstType;
      this.dueDate := dueDate;
      lines := [];
      status := Draft;
      savedStatus := Draft;
      subtotal, cgstAmount, sgstAmount, igstAmount, totalTax, grandTotal := 0, 0, 0, 0, 0, 0;
      paidAmount, balanceAmount := 0, 0;
      paymentStatus := PsUnpaid;
      pdfGenerated := false;
    }

    function Stored(): Amounts
      reads this
    {
      Amounts(Totals(subtotal, cgstAmount, sgstAmount, igstAmount, totalTax, grandTotal), paidAmount, balanceAmount)
    }

    /** The paid amount lies between 0 and the grand total, and the balance is what is still owed. */
    predicate BalanceConsistent()
      reads this
    {
      0 <= paidAmount <= grandTotal && balanceAmount == grandTotal - paidAmount
    }

    /** `_update_payment_status(save=False)` with the current date passed in: nothing is written to the row. */
    method UpdatePaymentStatus(today: int)
      modifies this
      ensures paymentStatus == DerivePaymentStatus(grandTotal, paidAmount, dueDate, today)
      ensures status == MirrorStatus(old(status), paymentStatus)
      ensures Stored() == old(Stored()) && lines == old(lines) && gstType == old(gstType)
      ensures dueDate == old(dueDate) && pdfGenerated == old(pdfGenerated) && savedStatus == old(savedStatus)
    {
      var ps := DerivePaymentStatus(grandTotal, paidAmount, dueDate, today);
      paymentStatus := ps;
      if status != Cancelled {
        if ps == PsPaid {
          status := Paid;
        } else if ps == PsOverdue {
          status := Overdue;
        } else if ps == PsPartial && status == Draft {
          status := Partial;
        }
      }
    }

    /** Store the quantized totals and recompute the balance against the paid amount. */
    method StoreTotals(t: Totals)
      modifies this
      ensures Stored() == Amounts(t, old(paidAmount), t.grandTotal - old(paidAmount))
      ensures lines == old(lines) && gstType == old(gstType) && dueDate == old(dueDate) && status == old(status)
      ensures paymentStatus == old(paymentStatus) && pdfGenerated == old(pdfGenerated) && savedStatus == old(savedStatus)
    {
      subtotal, cgstAmount, sgstAmount, igstAmount, totalTax, grandTotal := t.subtotal, t.cgst, t.sgst, t.igst, t.totalTax, t.grandTotal;
      balanceAmount := grandTotal - paidAmount;
    }

    /**
     * `calculate_totals`: store the rounded totals, recompute the balance, then
     * the payment status. Whether or not it saves, the row's `status` column
     * keeps its old value: the saved fields leave `status` out.
     */
    method CalculateTotals(today: int, breakdown: Breakdown)
      modifies this
      ensures Stored() == Amounts(ComputeTotals(old(lines), old(gstType), breakdown), old(paidAmount),
                                  ComputeTotals(old(lines), old(gstType), breakdown).grandTotal - old(paidAmount))
      ensures paymentStatus == DerivePaymentStatus(grandTotal, paidAmount, dueDate, today)
      ensures status == MirrorStatus(old(status), paymentStatus)
      ensures savedStatus == old(savedStatus)
      ensures lines == old(lines) && gstType == old(gstType) && dueDate == old(dueDate)
      ensures pdfGenerated == old(pdfGenerated)
    {
      var sub, tax := AccumulateLines(lines, gstType, breakdown);
      var totalTaxExact := tax.cgst + tax.sgst + tax.igst;
      var t := Totals(RoundHalfEven(sub), RoundHalfEven(tax.cgst), RoundHalfEven(tax.sgst),
                      RoundHalfEven(tax.igst), RoundHalfEven(totalTaxExact), RoundHalfEven(sub + totalTaxExact));
      assert t == ComputeTotals(lines, gstType, breakdown);
      StoreTotals(t);
      UpdatePaymentStatus(today);
    }

    /** `calculate_totals(save=True)` with `status` among the saved fields: the row keeps the mirrored status. */
    method CalculateTotalsSavingStatus(today: int, breakdown: Breakdown)
      modifies this
      ensures Stored() == Amounts(ComputeTotals(old(lines), old(gstType), breakdown), old(paidAmount),
                                  ComputeTotals(old(lines), old(gstType), breakdown).grandTotal - old(paidAmount))
      ensures paymentStatus == DerivePaymentStatus(grandTotal, paidAmount, dueDate, today)
      ensures status == MirrorStatus(old(status), paymentStatus)
      ensures savedStatus == status
      ensures lines == old(lines) && gstType == old(gstType) && dueDate == old(dueDate)
      ensures pdfGenerated == old(pdfGenerated)
    {
      CalculateTotals(today, breakdown);
      savedStatus := status;
    }

    /**
     * `apply_payment`: quantize the amount (a missing amount is 0); a
     * non-positive amount changes nothing; otherwise add it, capping the paid
     * amount at the grand total, re-derive balance and status, and save them,
     * `status` included.
     */
    method ApplyPayment(amount: Option<real>, today: int)
      modifies this
      ensures var a := RoundHalfEven(amount.GetOr(0.0));
              a <= 0 ==> Stored() == old(Stored()) && status == old(status) && paymentStatus == old(paymentStatus)
                         && savedStatus == old(savedStatus)
      ensures var a := RoundHalfEven(amount.GetOr(0.0));
              a > 0 ==>
                && paidAmount == Min(old(paidAmount) + a, old(grandTotal))
                && balanceAmount == grandTotal - paidAmount
                && paymentStatus == DerivePaymentStatus(grandTotal, paidAmount, dueDate, today)
                && status == MirrorStatus(old(status), paymentStatus)
                && savedStatus == status
      ensures old(BalanceConsistent()) ==> BalanceConsistent()
      ensures old(Stored()).totals == Stored().totals
      ensures lines == old(lines) && gstType == old(gstType) && dueDate == old(dueDate)
      ensures pdfGenerated == old(pdfGenerated)
    {
      var a := RoundHalfEven(amount.GetOr(0.0));
      if a <= 0 {
        return;
      }
      paidAmount := paidAmount + a;
      if paidAmount > grandTotal {
        paidAmount := grandTotal;
      }
      balanceAmount := grandTotal - paidAmount;
      UpdatePaymentStatus(today);
      savedStatus := status;
    }

    /**
     * `InvoiceLine.save` for a new line of this invoice: derive the line, then
     * recalculate and save the totals, leaving the row's `status` as it was.
     */
    method SaveLine(l: InvoiceLine, today: int, breakdown: Breakdown)
      modifies this
      ensures lines == old(lines) + [DeriveLine(l)]
      ensures Stored() == Amounts(ComputeTotals(lines, gstType, breakdown), old(paidAmount),
                                  ComputeTotals(lines, gstType, breakdown).grandTotal - old(paidAmount))
      ensures paymentStatus == DerivePaymentStatus(grandTotal, paidAmount, dueDate, today)
      ensures status == MirrorStatus(old(status), paymentStatus)
      ensures savedStatus == old(savedStatus)
      ensures gstType == old(gstType) && dueDate == old(dueDate) && pdfGenerated == old(pdfGenerated)
    {
      lines := lines + [DeriveLine(l)];
      CalculateTotals(today, breakdown);
    }

    /** `InvoiceLine.save` with the corrected save of the totals: the row's `status` follows the payment status. */
    method SaveLineSavingStatus(l: InvoiceLine, today: int, breakdown: Breakdown)
      modifies this
      ensures lines == old(lines) + [DeriveLine(l)]
      ensures Stored() == Amounts(ComputeTotals(lines, gstType, breakdown), old(paidAmount),
                                  ComputeTotals(lines, gstType, breakdown).grandTotal - old(paidAmount))
      ensures paymentStatus == DerivePaymentStatus(grandTotal, paidAmount, dueDate, today)
      ensures status == MirrorStatus(old(status), paymentStatus)
      ensures savedStatus == status
      ensures gstType == old(gstType) && dueDate == old(dueDate) && pdfGenerated == old(pdfGenerated)
    {
      lines := lines + [DeriveLine(l)];
      CalculateTotalsSavingStatus(today, breakdown);
    }
  }

  /** One unit at one rupee, zero-rated. */
  const OneRupeeLine := InvoiceLine(None, "", 1.0, 1.0, 0.0, 0.0)

  /** The breakdown charges no tax on a one-rupee zero-rated line. */
  predicate ZeroRateFree(breakdown: Breakdown)
  {
    breakdown(1.0, 0.0, IntraState) == TaxSplit(0.0, 0.0, 0.0)
  }

  /**
   * As written: a DRAFT invoice due on day 1 gains a line on day 2. In memory
   * it becomes OVERDUE, and the row's payment status is saved as OVERDUE, but
   * the row's `status` stays DRAFT.
   */
  method OverdueLineLeavesRowDraft(breakdown: Breakdown)
    returns (status: InvoiceStatus, rowPayment: PaymentStatus, rowStatus: InvoiceStatus)
    requires ZeroRateFree(breakdown)
    ensures status == Overdue && rowPayment == PsOverdue
    ensures rowStatus == Draft
  {
    var inv := new Invoice(IntraState, Some(1));
    OneRupeeLineTotals(breakdown);
    inv.SaveLine(OneRupeeLine, 2, breakdown);
    status, rowPayment, rowStatus := inv.status, inv.paymentStatus, inv.savedStatus;
  }

  /** Corrected: the same line saved with `status` among the saved fields leaves the row OVERDUE. */
  method OverdueLineMarksRowOverdue(breakdown: Breakdown) returns (status: InvoiceStatus, rowStatus: InvoiceStatus)
    requires ZeroRateFree(breakdown)
    ensures status == Overdue && rowStatus == Overdue
  {
    var inv := new Invoice(IntraState, Some(1));
    OneRupeeLineTotals(breakdown);
    inv.SaveLineSavingStatus(OneRupeeLine, 2, breakdown);
    status, rowStatus := inv.status, inv.savedStatus;
  }

  lemma OneRupeeLineTotals(breakdown: Breakdown)
    requires ZeroRateFree(breakdown)
    ensures ComputeTotals([DeriveLine(OneRupeeLine)], IntraState, breakdown).grandTotal == 100
  {
    OneRupeeSubtotal();
    OneLineTax(DeriveLine(OneRupeeLine), IntraState, breakdown);
    OneRupeeRounds();
  }

  /** The tax of a single line is that line's breakdown. */
  lemma OneLineTax(l: InvoiceLine, gstType: GstType, breakdown: Breakdown)
    ensures TaxOf([l], gstType, breakdown) == AddSplit(TaxSplit(0.0, 0.0, 0.0), breakdown(LineSubtotal(l), l.gstRate, gstType))
  {
    assert [l][..0] == [];
  }

  lemma OneRupeeSubtotal()
    ensures SubtotalOf([DeriveLine(OneRupeeLine)]) == 1.0
  {
    var l := DeriveLine(OneRupeeLine);
    assert [l][..0] == [];
  }

  lemma OneRupeeRounds()
    ensures RoundHalfEven(1.0 + (0.0 + 0.0 + 0.0)) == 100
  {
    assert (100.0).Floor == 100;
  }
}
