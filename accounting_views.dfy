/**
 * The invoice endpoints: the list filters, the totals read-out, marking an
 * invoice paid, recording a payment and flagging the PDF as generated.
 */
module AccountingViews {
  import opened Wrappers
  import opened Seqs
  import opened Money
  import opened AccountingModels

  /** What the list filters look at in an invoice row; dates are day numbers. */
  datatype InvoiceRow = InvoiceRow(id: int, status: string, customerId: int, invoiceDate: int)

  /**
   * The query parameters as text. A missing parameter is `None`; an empty
   * string is falsy and also disables its filter.
   */
  datatype InvoiceQuery = InvoiceQuery(
    status: Option<string>,
    customer: Option<string>,
    dateFrom: Option<string>,
    dateTo: Option<string>)

  /**
   * The list response: the filtered rows, or the server error raised when the
   * customer parameter is not an integer or a date parameter is not a date.
   */
  datatype ListOutcome = Listed(rows: seq<InvoiceRow>) | ListFailed

  predicate Given(p: Option<string>)
  {
    p.Some? && p.value != ""
  }

  /** A parameter that is off, or whose text the field's conversion accepts. */
  predicate Converts<T>(p: Option<string>, convert: string -> Option<T>)
  {
    !Given(p) || convert(p.value).Some?
  }

  /**
   * The conjunction of the filters that are switched on, each comparing with
   * the parameter as the field converts it: `parseId` is the integer
   * conversion of `customer_id`, `parseDate` that of `invoice_date`.
   */
  predicate MatchesQuery(x: InvoiceRow, q: InvoiceQuery, parseId: string -> Option<int>, parseDate: string -> Option<int>)
  {
    && (Given(q.status) ==> x.status == q.status.value)
    && (Given(q.customer) ==> parseId(q.customer.value) == Some(x.customerId))
    && (Given(q.dateFrom) ==> parseDate(q.dateFrom.value).Some? && x.invoiceDate >= parseDate(q.dateFrom.value).value)
    && (Given(q.dateTo) ==> parseDate(q.dateTo.value).Some? && x.invoiceDate <= parseDate(q.dateTo.value).value)
  }

  /** `qs.filter(...)` applied only when its parameter is switched on. */
  function FilterIf(rows: seq<InvoiceRow>, on: bool, test: InvoiceRow -> bool): (r: seq<InvoiceRow>)
    ensures |r| <= |rows|
    ensures forall x :: x in r <==> x in rows && (on ==> test(x))
  {
    if on then Filter(rows, test) else rows
  }

  function StatusIs(s: string): InvoiceRow -> bool { (x: InvoiceRow) => x.status == s }
  function CustomerIs(id: Option<int>): InvoiceRow -> bool { (x: InvoiceRow) => Some(x.customerId) == id }
  function DatedFrom(d: Option<int>): InvoiceRow -> bool { (x: InvoiceRow) => d.Some? && x.invoiceDate >= d.value }
  function DatedTo(d: Option<int>): InvoiceRow -> bool { (x: InvoiceRow) => d.Some? && x.invoiceDate <= d.value }

  /**
   * `InvoiceViewSet.get_queryset`: each filter narrows the role-scoped rows
   * only when its parameter is present and non-empty; a value the field
   * cannot convert raises, which the client sees as a server error.
   */
  function FilterInvoices(rows: seq<InvoiceRow>, q: InvoiceQuery, parseId: string -> Option<int>,
                          parseDate: string -> Option<int>): (r: ListOutcome)
    ensures r.ListFailed? <==>
              !Converts(q.customer, parseId) || !Converts(q.dateFrom, parseDate) || !Converts(q.dateTo, parseDate)
    ensures r.Listed? ==> |r.rows| <= |rows|
    ensures r.Listed? ==> forall x :: x in r.rows <==> x in rows && MatchesQuery(x, q, parseId, parseDate)
  {
    if !Converts(q.customer, parseId) || !Converts(q.dateFrom, parseDate) || !Converts(q.dateTo, parseDate) then
      ListFailed
    else
      var r1 := FilterIf(rows, Given(q.status), StatusIs(q.status.GetOr("")));
      var r2 := FilterIf(r1, Given(q.customer), CustomerIs(parseId(q.customer.GetOr(""))));
      var r3 := FilterIf(r2, Given(q.dateFrom), DatedFrom(parseDate(q.dateFrom.GetOr(""))));
      Listed(FilterIf(r3, Given(q.dateTo), DatedTo(parseDate(q.dateTo.GetOr("")))))
  }

  /** With no parameters the scoped rows come back as they are. */
  lemma NoQueryKeepsAll(rows: seq<InvoiceRow>, parseId: string -> Option<int>, parseDate: string -> Option<int>)
    ensures FilterInvoices(rows, InvoiceQuery(None, None, None, None), parseId, parseDate) == Listed(rows)
  {
  }

  /** Switching on the status filter can only narrow the result. */
  lemma MoreFiltersNarrow(rows: seq<InvoiceRow>, q: InvoiceQuery, status: string,
                          parseId: string -> Option<int>, parseDate: string -> Option<int>)
    requires !Given(q.status) && status != ""
    ensures var wide, narrow := FilterInvoices(rows, q, parseId, parseDate), FilterInvoices(rows, q.(status := Some(status)), parseId, parseDate);
            narrow.Listed? == wide.Listed? && (narrow.Listed? ==> forall x :: x in narrow.rows ==> x in wide.rows)
  {
  }

  /**
   * The customer filter compares converted ids, not texts: two texts the
   * conversion reads as the same id (`"7"` and `"07"`) list the same rows.
   */
  lemma SameIdSameRows(rows: seq<InvoiceRow>, q: InvoiceQuery, a: string, b: string,
                       parseId: string -> Option<int>, parseDate: string -> Option<int>)
    requires a != "" && b != "" && parseId(a) == parseId(b)
    ensures FilterInvoices(rows, q.(customer := Some(a)), parseId, parseDate)
            == FilterInvoices(rows, q.(customer := Some(b)), parseId, parseDate)
  {
    assert CustomerIs(parseId(a)) == CustomerIs(parseId(b));
  }

  /** `totals`: recompute without saving and report the six total fields. */
  method TotalsAction(inv: Invoice, today: int, breakdown: Breakdown) returns (t: Totals)
    modifies inv
    ensures t == ComputeTotals(old(inv.lines), old(inv.gstType), breakdown)
    ensures t == inv.Stored().totals
    ensures inv.savedStatus == old(inv.savedStatus)
  {
    inv.CalculateTotals(today, breakdown);
    t := inv.Stored().totals;
  }

  /** `mark_paid`: pay whatever is outstanding. */
  method MarkPaid(inv: Invoice, today: int)
    modifies inv
    ensures old(inv.paidAmount) < old(inv.grandTotal) ==>
              inv.paidAmount == inv.grandTotal && inv.balanceAmount == 0
    ensures 0 < old(inv.grandTotal) && old(inv.paidAmount) < old(inv.grandTotal) ==> inv.paymentStatus == PsPaid
    ensures old(inv.paidAmount) < old(inv.grandTotal) ==>
              && inv.paymentStatus == DerivePaymentStatus(inv.grandTotal, inv.paidAmount, inv.dueDate, today)
              && inv.status == MirrorStatus(old(inv.status), inv.paymentStatus)
              && inv.savedStatus == inv.status
    ensures old(inv.paidAmount) >= old(inv.grandTotal) ==>
              inv.Stored() == old(inv.Stored()) && inv.status == old(inv.status) && inv.savedStatus == old(inv.savedStatus)
    ensures inv.Stored().totals == old(inv.Stored().totals)
    ensures inv.lines == old(inv.lines) && inv.gstType == old(inv.gstType) && inv.dueDate == old(inv.dueDate)
    ensures inv.pdfGenerated == old(inv.pdfGenerated)
  {
    var outstanding := inv.grandTotal - inv.paidAmount;
    RoundHalfEvenExact(outstanding);
    inv.ApplyPayment(Some(FromCents(outstanding)), today);
  }

  /** The outcome of `Decimal(str(amount))`: the conversion itself is not part of this model. */
  datatype ParsedAmount = Unparsable | NaN | PosInfinity | NegInfinity | Finite(value: real)

  /** What `record_payment` does with a parsed amount. */
  datatype PaymentDecision =
    | RejectInvalid          // 400 'Invalid amount'
    | RejectNotPositive      // 400 'Amount must be positive'
    | ServerError            // the decimal operation raises outside the `try`
    | Apply(amount: real)    // passed unchanged to `apply_payment`

  /**
   * The checks of `record_payment`. Comparing a NaN with 0 raises, and so does
   * quantizing an infinite amount inside `apply_payment`.
   */
  function DecidePayment(p: ParsedAmount): (d: PaymentDecision)
    ensures d == RejectInvalid <==> p == Unparsable
    ensures d == RejectNotPositive <==> p == NegInfinity || (p.Finite? && p.value <= 0.0)
    ensures d.Apply? <==> p.Finite? && p.value > 0.0
    ensures d.Apply? ==> d.amount == p.value
    ensures d == ServerError <==> p == NaN || p == PosInfinity
  {
    match p
    case Unparsable => RejectInvalid
    case NaN => ServerError
    case NegInfinity => RejectNotPositive
    case PosInfinity => ServerError
    case Finite(v) => if v <= 0.0 then RejectNotPositive else Apply(v)
  }

  datatype Response = Response(status: int, detail: string)

  function ResponseOf(d: PaymentDecision): (r: Response)
    ensures r.status == 200 <==> d.Apply?
  {
    match d
    case RejectInvalid => Response(400, "Invalid amount")
    case RejectNotPositive => Response(400, "Amount must be positive")
    case ServerError => Response(500, "")
    case Apply(_) => Response(200, "")
  }

  /** A positive amount below half a paisa quantizes to zero, so the request succeeds and changes nothing. */
  lemma TinyPaymentIsNoOp(v: real)
    requires 0.0 < v < 0.005
    ensures DecidePayment(Finite(v)) == Apply(v)
    ensures RoundHalfEven(v) == 0
  {
  }

  /** `record_payment`: only an accepted amount reaches the invoice. */
  method RecordPayment(inv: Invoice, p: ParsedAmount, today: int) returns (r: Response)
    modifies inv
    ensures r == ResponseOf(DecidePayment(p))
    ensures !DecidePayment(p).Apply? || RoundHalfEven(p.value) <= 0 ==>
              inv.Stored() == old(inv.Stored()) && inv.status == old(inv.status)
              && inv.paymentStatus == old(inv.paymentStatus) && inv.savedStatus == old(inv.savedStatus)
    ensures DecidePayment(p).Apply? && RoundHalfEven(p.value) > 0 ==>
              && inv.paidAmount == Min(old(inv.paidAmount) + RoundHalfEven(p.value), old(inv.grandTotal))
              && inv.balanceAmount == inv.grandTotal - inv.paidAmount
              && inv.paymentStatus == DerivePaymentStatus(inv.grandTotal, inv.paidAmount, inv.dueDate, today)
              && inv.status == MirrorStatus(old(inv.status), inv.paymentStatus)
              && inv.savedStatus == inv.status
    ensures old(inv.BalanceConsistent()) ==> inv.BalanceConsistent()
    ensures inv.Stored().totals == old(inv.Stored().totals)
    ensures inv.lines == old(inv.lines) && inv.gstType == old(inv.gstType) && inv.dueDate == old(inv.dueDate)
    ensures inv.pdfGenerated == old(inv.pdfGenerated)
  {
    var d := DecidePayment(p);
    if d.Apply? {
      inv.ApplyPayment(Some(d.amount), today);
    }
    r := ResponseOf(d);
  }

  /** `generate_pdf`: set the flag and nothing else. */
  method GeneratePdf(inv: Invoice) returns (r: Response)
    modifies inv
    ensures inv.pdfGenerated
    ensures inv.Stored() == old(inv.Stored()) && inv.status == old(inv.status) && inv.savedStatus == old(inv.savedStatus)
    ensures inv.paymentStatus == old(inv.paymentStatus) && inv.lines == old(inv.lines)
    ensures r.status == 200
  {
    inv.pdfGenerated := true;
    r := Response(200, "");
  }
}
