/**
 * The invoice editor: a draft invoice updated by merging patches, and its
 * submission, which assigns the invoice number.
 *
 * The line items are kept as given (type parameter `L`); the creation date
 * and the clock reading at submission are parameters.
 */
module InvoiceForm {
  import opened Wrappers
  import opened Text

  datatype InvoiceStatus = Draft | Submitted | Paid

  datatype DraftInvoice<L> = DraftInvoice(
    id: string,
    invoiceNo: Option<string>,
    customer: Option<string>,
    date: string,
    dueDate: Option<string>,
    paymentTerms: Option<string>,
    items: seq<L>,
    status: InvoiceStatus)

  /** `Partial<DraftInvoice>`: `None` is a field the patch does not carry. */
  datatype InvoicePatch<L> = InvoicePatch(
    invoiceNo: Option<string>,
    customer: Option<string>,
    dueDate: Option<string>,
    paymentTerms: Option<string>,
    items: Option<seq<L>>,
    status: Option<InvoiceStatus>)

  function Empty<L>(now: string): (inv: DraftInvoice<L>)
    ensures inv.status == Draft && inv.invoiceNo.None? && inv.items == [] && inv.id == "new"
  {
    DraftInvoice("new", None, None, now, None, None, [], Draft)
  }

  function OrOpt<T>(p: Option<T>, v: Option<T>): Option<T>
  {
    if p.Some? then p else v
  }

  /** `{ ...i, ...patch }`. */
  function Merge<L>(inv: DraftInvoice<L>, p: InvoicePatch<L>): (r: DraftInvoice<L>)
    ensures r.id == inv.id && r.date == inv.date
    ensures p.invoiceNo.Some? ==> r.invoiceNo == p.invoiceNo
    ensures p.customer.Some? ==> r.customer == p.customer
    ensures p.dueDate.Some? ==> r.dueDate == p.dueDate
    ensures p.paymentTerms.Some? ==> r.paymentTerms == p.paymentTerms
    ensures p.items.Some? ==> r.items == p.items.value
    ensures p.status.Some? ==> r.status == p.status.value
    ensures p.invoiceNo.None? ==> r.invoiceNo == inv.invoiceNo
    ensures p.customer.None? ==> r.customer == inv.customer
    ensures p.dueDate.None? ==> r.dueDate == inv.dueDate
    ensures p.paymentTerms.None? ==> r.paymentTerms == inv.paymentTerms
    ensures p.items.None? ==> r.items == inv.items
    ensures p.status.None? ==> r.status == inv.status
    ensures p == InvoicePatch(None, None, None, None, None, None) ==> r == inv
  {
    inv.(invoiceNo := OrOpt(p.invoiceNo, inv.invoiceNo),
         customer := OrOpt(p.customer, inv.customer),
         dueDate := OrOpt(p.dueDate, inv.dueDate),
         paymentTerms := OrOpt(p.paymentTerms, inv.paymentTerms),
         items := if p.items.Some? then p.items.value else inv.items,
         status := if p.status.Some? then p.status.value else inv.status)
  }

  /** `invoice.invoiceNo || 'INV-' + Date.now()`: a missing or empty number is replaced. */
  function NumberOnSubmit(current: Option<string>, now: nat): (no: string)
    ensures current.Some? && current.value != "" ==> no == current.value
    ensures current.None? || current.value == "" ==> no == "INV-" + NatToString(now)
  {
    if current.Some? && current.value != "" then current.value else "INV-" + NatToString(now)
  }

  /** The number after submission is never empty, and a fresh one is `INV-` and digits. */
  lemma SubmittedNumberShape(current: Option<string>, now: nat)
    ensures NumberOnSubmit(current, now) != ""
    ensures current.None? || current.value == "" ==>
              StartsWith(NumberOnSubmit(current, now), "INV-") && AllDigits(NumberOnSubmit(current, now)[4..])
  {
    var no := NumberOnSubmit(current, now);
    if current.None? || current.value == "" {
      assert no[..4] == "INV-";
      assert no[4..] == NatToString(now);
    }
  }

  /** `submit`: the status becomes Submitted and the number is kept or assigned. */
  function Submit<L>(inv: DraftInvoice<L>, now: nat): (r: DraftInvoice<L>)
    ensures r.status == Submitted
    ensures r.invoiceNo.Some? && r.invoiceNo.value != ""
    ensures inv.invoiceNo.Some? && inv.invoiceNo.value != "" ==> r.invoiceNo == inv.invoiceNo
    ensures inv.invoiceNo.None? || inv.invoiceNo.value == "" ==>
              r.invoiceNo == Some("INV-" + NatToString(now)) && AllDigits(r.invoiceNo.value[4..])
    ensures r == inv.(status := Submitted, invoiceNo := r.invoiceNo)
  {
    SubmittedNumberShape(inv.invoiceNo, now);
    Merge(inv, InvoicePatch(Some(NumberOnSubmit(inv.invoiceNo, now)), None, None, None, None, Some(Submitted)))
  }

  /** Submission changes only the status and the number, and a second submit would change nothing further. */
  lemma SubmitEffect<L>(inv: DraftInvoice<L>, now: nat, later: nat)
    ensures var r := Submit(inv, now);
            r.status == Submitted && r.invoiceNo.Some? && r.invoiceNo.value != "" &&
            r == inv.(status := Submitted, invoiceNo := r.invoiceNo) &&
            Submit(r, later) == r
  {
    SubmittedNumberShape(inv.invoiceNo, now);
  }

  /** The Submit button is rendered only for a draft. */
  predicate SubmitOffered<L>(inv: DraftInvoice<L>)
  {
    inv.status == Draft
  }

  class Form<L> {
    var invoice: DraftInvoice<L>
    var preview: bool

    constructor(now: string)
      ensures invoice == Empty(now) && !preview
    {
      invoice := Empty(now);
      preview := false;
    }

    method Update(p: InvoicePatch<L>)
      modifies this
      ensures invoice == Merge(old(invoice), p) && preview == old(preview)
    {
      invoice := Merge(invoice, p);
    }

    /** The Submit button, available only for a draft; `now` is `Date.now()`. */
    method PressSubmit(now: nat)
      requires SubmitOffered(invoice)
      modifies this
      ensures invoice == Submit(old(invoice), now) && preview == old(preview)
      ensures !SubmitOffered(invoice)
    {
      Update(InvoicePatch(Some(NumberOnSubmit(invoice.invoiceNo, now)), None, None, None, None, Some(Submitted)));
    }

    method SetPreview(open: bool)
      modifies this
      ensures preview == open && invoice == old(invoice)
    {
      preview := open;
    }
  }
}
