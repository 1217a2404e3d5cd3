/**
 * The sales-order editor: a draft order updated by merging patches, and
 * the approval workflow offered by its buttons.
 *
 * The line items are kept as given (type parameter `L`); the creation
 * date is a parameter.
 */
module SalesOrderForm {
  import opened Wrappers

  datatype OrderStatus = Draft | PendingApproval | Approved | Rejected

  datatype DraftOrder<L> = DraftOrder(
    id: string,
    customer: Option<string>,
    status: OrderStatus,
    date: string,
    deliveryDate: Option<string>,
    paymentTerms: Option<string>,
    discountPct: Option<real>,
    items: seq<L>)

  /** `Partial<DraftOrder>`: `None` is a field the patch does not carry. */
  datatype OrderPatch<L> = OrderPatch(
    id: Option<string>,
    customer: Option<string>,
    status: Option<OrderStatus>,
    date: Option<string>,
    deliveryDate: Option<string>,
    paymentTerms: Option<string>,
    discountPct: Option<real>,
    items: Option<seq<L>>)

  function NoChange<L>(): OrderPatch<L>
  {
    OrderPatch(None, None, None, None, None, None, None, None)
  }

  function StatusPatch<L>(s: OrderStatus): OrderPatch<L>
  {
    NoChange<L>().(status := Some(s))
  }

  /** The order a new form starts from. */
  function Empty<L>(now: string): (o: DraftOrder<L>)
    ensures o.status == Draft && o.items == [] && o.id == "new"
    ensures o.customer.None? && o.deliveryDate.None? && o.paymentTerms.None? && o.discountPct.None?
  {
    DraftOrder("new", None, Draft, now, None, None, None, [])
  }

  function Or<T>(p: Option<T>, v: T): T
  {
    if p.Some? then p.value else v
  }

  function OrOpt<T>(p: Option<T>, v: Option<T>): Option<T>
  {
    if p.Some? then p else v
  }

  /** `{ ...o, ...patch }`: a field the patch carries replaces the order's; the rest stay. */
  function Merge<L>(o: DraftOrder<L>, p: OrderPatch<L>): (r: DraftOrder<L>)
    ensures p == NoChange() ==> r == o
    ensures p.status.Some? ==> r.status == p.status.value
  {
    DraftOrder(Or(p.id, o.id), OrOpt(p.customer, o.customer), Or(p.status, o.status), Or(p.date, o.date),
               OrOpt(p.deliveryDate, o.deliveryDate), OrOpt(p.paymentTerms, o.paymentTerms),
               OrOpt(p.discountPct, o.discountPct), Or(p.items, o.items))
  }

  /** A patch replaces exactly the fields it carries. */
  lemma MergeFields<L>(o: DraftOrder<L>, p: OrderPatch<L>)
    ensures var r := Merge(o, p);
            (r.status == if p.status.Some? then p.status.value else o.status) &&
            (r.items == if p.items.Some? then p.items.value else o.items) &&
            (r.customer == if p.customer.Some? then p.customer else o.customer) &&
            (r.id == if p.id.Some? then p.id.value else o.id) &&
            (r.date == if p.date.Some? then p.date.value else o.date) &&
            (r.deliveryDate == if p.deliveryDate.Some? then p.deliveryDate else o.deliveryDate) &&
            (r.paymentTerms == if p.paymentTerms.Some? then p.paymentTerms else o.paymentTerms) &&
            (r.discountPct == if p.discountPct.Some? then p.discountPct else o.discountPct)
  {
  }

  /** The empty patch changes nothing, and applying a patch twice is applying it once. */
  lemma MergeIdentityAndIdempotent<L>(o: DraftOrder<L>, p: OrderPatch<L>)
    ensures Merge(o, NoChange()) == o
    ensures Merge(Merge(o, p), p) == Merge(o, p)
  {
  }

  datatype Action = SubmitForApproval | Approve | Reject

  /** The workflow buttons rendered for a status. */
  function Offered(s: OrderStatus): (acts: set<Action>)
    ensures SubmitForApproval in acts <==> s == Draft
    ensures Approve in acts <==> s == PendingApproval
    ensures Reject in acts <==> s == PendingApproval
  {
    match s
    case Draft => {SubmitForApproval}
    case PendingApproval => {Approve, Reject}
    case _ => {}
  }

  /** The status each button sets. */
  function Target(a: Action): (s: OrderStatus)
    ensures s != Draft
    ensures Offered(s) == {} <==> a != SubmitForApproval
  {
    match a
    case SubmitForApproval => PendingApproval
    case Approve => Approved
    case Reject => Rejected
  }

  /**
   * The workflow the buttons allow: Draft to Pending Approval, then to
   * Approved or Rejected, which offer nothing further; a status is never
   * left for itself or for Draft.
   */
  lemma WorkflowOrder(s: OrderStatus, a: Action)
    requires a in Offered(s)
    ensures Target(a) != s && Target(a) != Draft
    ensures s == Draft ==> Target(a) == PendingApproval
    ensures s == PendingApproval ==> Target(a) in {Approved, Rejected}
    ensures Offered(Target(a)) == {} <==> s == PendingApproval
  {
  }

  class OrderForm<L> {
    var order: DraftOrder<L>

    constructor(now: string)
      ensures order == Empty(now)
    {
      order := Empty(now);
    }

    /** `update`. */
    method Update(p: OrderPatch<L>)
      modifies this
      ensures order == Merge(old(order), p)
    {
      order := Merge(order, p);
    }

    /** A workflow button: available only when rendered, it sets its status and nothing else. */
    method Press(a: Action)
      requires a in Offered(order.status)
      modifies this
      ensures order == old(order).(status := Target(a))
    {
      Update(StatusPatch(Target(a)));
    }
  }
}
