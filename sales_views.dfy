/**
 * The sales endpoints: the write-permission class, the customer list
 * filters, the customer balance, bulk (de)activation and the bulk order
 * transitions.
 *
 * A table is a sequence of rows in queryset order. `SalesOrder` and its
 * guards and transitions are not part of this model: they are parameters.
 */
module SalesViews {
  import opened Wrappers
  import opened Text
  import opened Seqs
  import opened Money
  import opened Roles
  import opened Permissions
  import opened SalesModels

  // ------------------------------------------------------------ permission

  /**
   * `IsManagerOrAdmin.has_permission`: any authenticated user may read;
   * writing needs a superuser, an admin or a manager.
   */
  function SalesPermission(p: Principal, verb: string, superuser: bool): (allowed: bool)
    ensures p.Anonymous? ==> !allowed
    ensures p.Authenticated? && IsSafeMethod(verb) ==> allowed
    ensures p.Authenticated? && !IsSafeMethod(verb) ==>
              (allowed <==> superuser || HasRoleAtLeast(p.user.role, ManagerRole))
  {
    if p.Anonymous? then false
    else if IsSafeMethod(verb) then true
    else if superuser then true
    else IsAdmin(p.user.role) || IsManager(p.user.role)
  }

  /** For writes by a non-superuser it is the role permission class `IsManagerOrAdmin`. */
  lemma SalesWriteIsManagerOrAdmin(p: Principal, verb: string)
    requires !IsSafeMethod(verb)
    ensures SalesPermission(p, verb, false) == IsManagerOrAdminPermission(p)
  {
  }

  // ------------------------------------------------------------ customer list

  datatype CustomerRow = CustomerRow(id: int, fields: CustomerFields)

  predicate NameMatches(x: CustomerRow, name: string)
  {
    ContainsIgnoringCase(x.fields.name, name)
  }

  /** There is no city field: either address may contain it. */
  predicate CityMatches(x: CustomerRow, city: string)
  {
    ContainsIgnoringCase(x.fields.billingAddress, city) || ContainsIgnoringCase(x.fields.shippingAddress, city)
  }

  /** `CustomerViewSet.get_queryset`: each filter applies only when its parameter is truthy. */
  function FilterCustomers(rows: seq<CustomerRow>, name: Option<string>, city: Option<string>): (r: seq<CustomerRow>)
    ensures |r| <= |rows|
    ensures forall x :: x in r <==>
              x in rows
              && (name.Some? && name.value != "" ==> NameMatches(x, name.value))
              && (city.Some? && city.value != "" ==> CityMatches(x, city.value))
  {
    var byName := if name.Some? && name.value != "" then Filter(rows, (x: CustomerRow) => NameMatches(x, name.value)) else rows;
    if city.Some? && city.value != "" then Filter(byName, (x: CustomerRow) => CityMatches(x, city.value)) else byName
  }

  /** Without parameters every customer is listed, in order. */
  lemma NoCustomerFilterKeepsAll(rows: seq<CustomerRow>)
    ensures FilterCustomers(rows, None, Some("")) == rows
  {
  }

  // ------------------------------------------------------------ balance

  datatype ArInvoice = ArInvoice(id: int, customerId: int, status: string, grandTotal: real)

  datatype Allocation = Allocation(invoiceId: int, amountApplied: real)

  const Issued: string := "ISSUED"
  const PartiallyPaid: string := "PARTIAL"

  predicate OpenFor(inv: ArInvoice, customer: int)
  {
    inv.customerId == customer && (inv.status == Issued || inv.status == PartiallyPaid)
  }

  /** The customer's issued and partially paid invoices. */
  function OpenInvoices(invoices: seq<ArInvoice>, customer: int): (r: seq<ArInvoice>)
    ensures forall x :: x in r <==> x in invoices && OpenFor(x, customer)
  {
    Filter(invoices, (x: ArInvoice) => OpenFor(x, customer))
  }

  function Ids(invoices: seq<ArInvoice>): set<int>
  {
    set x | x in invoices :: x.id
  }

  /** The allocations applied to one of the given invoices (`invoice__in`). */
  function AllocationsTo(allocs: seq<Allocation>, ids: set<int>): (r: seq<Allocation>)
    ensures forall a :: a in r <==> a in allocs && a.invoiceId in ids
  {
    Filter(allocs, (a: Allocation) => a.invoiceId in ids)
  }

  /** The outstanding amount before rounding; an empty sum is zero. */
  function Outstanding(customer: int, invoices: seq<ArInvoice>, allocs: seq<Allocation>): real
  {
    var open := OpenInvoices(invoices, customer);
    Sum(open, (x: ArInvoice) => x.grandTotal)
    - Sum(AllocationsTo(allocs, Ids(open)), (a: Allocation) => a.amountApplied)
  }

  /** `balance`: the outstanding amount quantized to paise (half-even), in paise. */
  function Balance(customer: int, invoices: seq<ArInvoice>, allocs: seq<Allocation>): (cents: int)
    ensures var x := Outstanding(customer, invoices, allocs) * 100.0;
            x - 0.5 <= cents as real <= x + 0.5
    ensures var x := Outstanding(customer, invoices, allocs) * 100.0;
            (cents as real - x == 0.5 || x - cents as real == 0.5) ==> cents % 2 == 0
  {
    RoundHalfEven(Outstanding(customer, invoices, allocs))
  }

  lemma EmptyFilter<T>(s: seq<T>, p: T -> bool)
    requires forall x :: x in s ==> !p(x)
    ensures Filter(s, p) == []
  {
  }

  /** A customer without issued or partially paid invoices has a zero balance, whatever the allocations. */
  lemma BalanceWithoutOpenInvoices(customer: int, invoices: seq<ArInvoice>, allocs: seq<Allocation>)
    requires forall x :: x in invoices ==> !OpenFor(x, customer)
    ensures Balance(customer, invoices, allocs) == 0
  {
    EmptyFilter(invoices, (x: ArInvoice) => OpenFor(x, customer));
    assert Ids([]) == {};
    EmptyFilter(allocs, (a: Allocation) => a.invoiceId in Ids([]));
    RoundHalfEvenExact(0);
  }

  /** A draft, paid or cancelled invoice, or another customer's, does not move the balance. */
  lemma BalanceIgnoresOtherInvoices(customer: int, invoices: seq<ArInvoice>, allocs: seq<Allocation>, inv: ArInvoice)
    requires !OpenFor(inv, customer)
    ensures Balance(customer, invoices + [inv], allocs) == Balance(customer, invoices, allocs)
  {
    var p := (x: ArInvoice) => OpenFor(x, customer);
    FilterAppend(invoices, [inv], p);
    FilterSingleton(inv, p);
    assert OpenInvoices(invoices + [inv], customer) == OpenInvoices(invoices, customer) + [];
    assert OpenInvoices(invoices, customer) + [] == OpenInvoices(invoices, customer);
  }

  /** An allocation to an invoice that is not open for the customer does not move the balance. */
  lemma BalanceIgnoresOtherAllocations(customer: int, invoices: seq<ArInvoice>, allocs: seq<Allocation>, a: Allocation)
    requires a.invoiceId !in Ids(OpenInvoices(invoices, customer))
    ensures Balance(customer, invoices, allocs + [a]) == Balance(customer, invoices, allocs)
  {
    var ids := Ids(OpenInvoices(invoices, customer));
    var p := (x: Allocation) => x.invoiceId in ids;
    FilterAppend(allocs, [a], p);
    FilterSingleton(a, p);
    assert AllocationsTo(allocs + [a], ids) == AllocationsTo(allocs, ids) + [];
    assert AllocationsTo(allocs, ids) + [] == AllocationsTo(allocs, ids);
  }

  // ------------------------------------------------------------ bulk (de)activation

  /**
   * `bulk_activate` / `bulk_deactivate`: one `update(is_active=...)` over the
   * listed ids; the count is the number of matched rows.
   */
  function BulkSetActive(rows: seq<CustomerRow>, ids: set<int>, active: bool): (r: (seq<CustomerRow>, nat))
    ensures |r.0| == |rows|
    ensures forall i :: 0 <= i < |rows| ==>
              r.0[i] == if rows[i].id in ids then rows[i].(fields := rows[i].fields.(isActive := active)) else rows[i]
    ensures r.1 == |Filter(rows, (x: CustomerRow) => x.id in ids)|
  {
    var updated := seq(|rows|, i requires 0 <= i < |rows| =>
      if rows[i].id in ids then rows[i].(fields := rows[i].fields.(isActive := active)) else rows[i]);
    (updated, |Filter(rows, (x: CustomerRow) => x.id in ids)|)
  }

  /** Every listed customer ends with the requested flag and the rest keep theirs. */
  lemma BulkSetActiveEffect(rows: seq<CustomerRow>, ids: set<int>, active: bool)
    ensures forall i :: 0 <= i < |rows| ==>
              (rows[i].id in ids ==> BulkSetActive(rows, ids, active).0[i].fields.isActive == active)
              && (rows[i].id !in ids ==> BulkSetActive(rows, ids, active).0[i] == rows[i])
    ensures BulkSetActive(rows, ids, active).1 <= |rows|
    ensures ids == {} ==> BulkSetActive(rows, ids, active).1 == 0
  {
    if ids == {} {
      EmptyFilter(rows, (x: CustomerRow) => x.id in ids);
    }
  }

  // ------------------------------------------------------------ order transitions

  datatype Order = Order(id: int, status: string)

  /** The result of calling a transition method on an order. */
  datatype Outcome = Done(order: Order) | Raised

  /**
   * The parts of `SalesOrder` the views call: the three status values and
   * each transition's guard and method.
   */
  datatype Workflow = Workflow(
    confirmed: string, cancelled: string, delivered: string,
    canConfirm: Order -> bool, confirm: Order -> Outcome,
    canCancel: Order -> bool, cancel: Order -> Outcome,
    canDeliver: Order -> bool, deliver: Order -> Outcome)

  /** What one pass does with one requested order. */
  datatype Step = Skip | Change(next: Order) | Raise

  function Guarded(o: Order, guard: Order -> bool, act: Order -> Outcome): Step
  {
    if !guard(o) then Skip
    else match act(o)
      case Done(n) => Change(n)
      case Raised => Raise
  }

  function ConfirmStep(w: Workflow): Order -> Step
  {
    o => Guarded(o, w.canConfirm, w.confirm)
  }

  function CancelStep(w: Workflow): Order -> Step
  {
    o => Guarded(o, w.canCancel, w.cancel)
  }

  /** `bulk_status`: the first branch whose status and guard both hold is taken. */
  function StatusStep(w: Workflow, status: Option<string>): Order -> Step
  {
    o =>
      if status == Some(w.confirmed) && w.canConfirm(o) then Guarded(o, w.canConfirm, w.confirm)
      else if status == Some(w.cancelled) && w.canCancel(o) then Guarded(o, w.canCancel, w.cancel)
      else if status == Some(w.delivered) && w.canDeliver(o) then Guarded(o, w.canDeliver, w.deliver)
      else Skip
  }

  /** The rows a pass has handled, the ids it reported, and whether an exception ended it. */
  datatype PassState = PassState(done: seq<Order>, updated: seq<int>, stopped: bool)

  function After(o: Order, ids: set<int>, step: Order -> Step): Order
  {
    if o.id in ids && step(o).Change? then step(o).next else o
  }

  predicate ChangedBy(o: Order, ids: set<int>, step: Order -> Step)
  {
    o.id in ids && step(o).Change?
  }

  predicate RaisesIn(o: Order, ids: set<int>, step: Order -> Step)
  {
    o.id in ids && step(o).Raise?
  }

  /**
   * One loop over the requested orders. With `stopOnRaise` an exception
   * ends the request (the orders already handled stay changed); without
   * it the order is skipped.
   */
  function Pass(rows: seq<Order>, ids: set<int>, step: Order -> Step, stopOnRaise: bool): (p: PassState)
    ensures |p.done| <= |rows|
    ensures !p.stopped <==> |p.done| == |rows|
    ensures forall i :: 0 <= i < |p.done| ==> p.done[i] == After(rows[i], ids, step)
    ensures p.stopped ==> stopOnRaise && RaisesIn(rows[|p.done|], ids, step)
    ensures stopOnRaise ==> forall i :: 0 <= i < |p.done| ==> !RaisesIn(rows[i], ids, step)
    decreases |rows|
  {
    if rows == [] then PassState([], [], false)
    else
      var init := rows[..|rows| - 1];
      var o := rows[|rows| - 1];
      var p := Pass(init, ids, step, stopOnRaise);
      if p.stopped then p
      else if o.id !in ids then p.(done := p.done + [o])
      else match step(o)
        case Skip => p.(done := p.done + [o])
        case Change(n) => PassState(p.done + [n], p.updated + [o.id], false)
        case Raise => if stopOnRaise then p.(stopped := true) else p.(done := p.done + [o])
  }

  lemma MapIdsSnoc(s: seq<Order>, o: Order)
    ensures Map(s + [o], (x: Order) => x.id) == Map(s, (x: Order) => x.id) + [o.id]
  {
  }

  predicate ReportsChanged(rows: seq<Order>, ids: set<int>, step: Order -> Step, stopOnRaise: bool)
  {
    var p := Pass(rows, ids, step, stopOnRaise);
    p.updated == Map(Filter(rows[..|p.done|], (o: Order) => ChangedBy(o, ids, step)), (o: Order) => o.id)
  }

  /** The reported ids are those of the changed orders among the handled ones, in table order. */
  lemma {:induction false} PassReports(rows: seq<Order>, ids: set<int>, step: Order -> Step, stopOnRaise: bool)
    ensures ReportsChanged(rows, ids, step, stopOnRaise)
    decreases |rows|
  {
    if rows == [] {
      assert rows[..0] == [];
    } else {
      var init := rows[..|rows| - 1];
      PassReports(init, ids, step, stopOnRaise);
      assert rows == init + [rows[|rows| - 1]];
      PassReportsSnoc(init, rows[|rows| - 1], ids, step, stopOnRaise);
    }
  }

  /** The last row adds its id to the report exactly when it is changed. */
  lemma PassLastUpdated(init: seq<Order>, o: Order, ids: set<int>, step: Order -> Step, stopOnRaise: bool)
    requires !Pass(init + [o], ids, step, stopOnRaise).stopped
    ensures !Pass(init, ids, step, stopOnRaise).stopped
    ensures Pass(init + [o], ids, step, stopOnRaise).updated
            == Pass(init, ids, step, stopOnRaise).updated + (if ChangedBy(o, ids, step) then [o.id] else [])
  {
    assert (init + [o])[..|init|] == init;
  }

  lemma PassReportsSnoc(init: seq<Order>, o: Order, ids: set<int>, step: Order -> Step, stopOnRaise: bool)
    requires ReportsChanged(init, ids, step, stopOnRaise)
    ensures ReportsChanged(init + [o], ids, step, stopOnRaise)
  {
    var rows := init + [o];
    var q := Pass(rows, ids, step, stopOnRaise);
    if q.stopped {
      assert rows[..|rows| - 1] == init;
      var p := Pass(init, ids, step, stopOnRaise);
      assert q == p.(stopped := true);
      assert init[..|p.done|] == rows[..|p.done|];
    } else {
      var f := (o: Order) => ChangedBy(o, ids, step);
      PassLastUpdated(init, o, ids, step, stopOnRaise);
      assert rows[..|q.done|] == rows;
      assert init[..|init|] == init;
      FilterAppend(init, [o], f);
      FilterSingleton(o, f);
      var fi := Filter(init, f);
      if f(o) {
        MapIdsSnoc(fi, o);
      } else {
        assert fi + [] == fi;
      }
    }
  }

  /** The table after a pass: the handled rows, then the untouched rest. */
  function TableAfter(rows: seq<Order>, p: PassState): seq<Order>
    requires |p.done| <= |rows|
  {
    p.done + rows[|p.done|..]
  }

  /** Every reported id was requested, and names an order the pass changed. */
  lemma PassReportsOnlyChangedRequested(rows: seq<Order>, ids: set<int>, step: Order -> Step, stopOnRaise: bool)
    ensures var p := Pass(rows, ids, step, stopOnRaise);
            forall k :: 0 <= k < |p.updated| ==>
              p.updated[k] in ids
              && exists i :: 0 <= i < |p.done| && rows[i].id == p.updated[k] && step(rows[i]).Change?
  {
    var p := Pass(rows, ids, step, stopOnRaise);
    var f := Filter(rows[..|p.done|], (o: Order) => ChangedBy(o, ids, step));
    PassReports(rows, ids, step, stopOnRaise);
    forall k | 0 <= k < |p.updated|
      ensures p.updated[k] in ids
      ensures exists i :: 0 <= i < |p.done| && rows[i].id == p.updated[k] && step(rows[i]).Change?
    {
      assert f[k] in f;
      assert f[k] in rows[..|p.done|];
      var i :| 0 <= i < |p.done| && rows[..|p.done|][i] == f[k];
      assert rows[i] == f[k];
    }
  }

  /** Orders that were not requested, or whose step did not change them, are left as they were. */
  lemma PassChangesOnlyChangedRows(rows: seq<Order>, ids: set<int>, step: Order -> Step, stopOnRaise: bool)
    ensures var p := Pass(rows, ids, step, stopOnRaise);
            var t := TableAfter(rows, p);
            |t| == |rows|
            && forall i :: 0 <= i < |rows| && !ChangedBy(rows[i], ids, step) ==> t[i] == rows[i]
  {
  }

  /** An unrecognised status value changes and reports nothing. */
  lemma UnknownStatusChangesNothing(rows: seq<Order>, ids: set<int>, w: Workflow, status: Option<string>)
    requires status != Some(w.confirmed) && status != Some(w.cancelled) && status != Some(w.delivered)
    ensures var p := Pass(rows, ids, StatusStep(w, status), false);
            TableAfter(rows, p) == rows && p.updated == []
  {
    var step := StatusStep(w, status);
    var p := Pass(rows, ids, step, false);
    assert forall o :: !ChangedBy(o, ids, step);
    EmptyFilter(rows, (o: Order) => ChangedBy(o, ids, step));
    assert rows[..|p.done|] == rows;
  }

  /** A table of orders; the bulk actions update its rows in place. */
  class OrderTable {
    var rows: seq<Order>

    constructor(rows: seq<Order>)
      ensures this.rows == rows
    {
      this.rows := rows;
    }

    /** The loop shared by the three bulk actions. */
    method RunPass(ids: set<int>, step: Order -> Step, stopOnRaise: bool) returns (p: PassState)
      modifies this
      ensures p == Pass(old(rows), ids, step, stopOnRaise)
      ensures rows == TableAfter(old(rows), p)
    {
      var all := rows;
      p := PassState([], [], false);
      var i := 0;
      assert all[..0] == [];
      while i < |all|
        invariant 0 <= i <= |all|
        invariant p == Pass(all[..i], ids, step, stopOnRaise)
        invariant !p.stopped
        invariant rows == p.done + all[i..]
        decreases |all| - i
      {
        var o := all[i];
        assert all[..i + 1][..i] == all[..i];
        assert all[..i + 1][i] == o;
        var next := Pass(all[..i + 1], ids, step, stopOnRaise);
        if next.stopped {
          p := next;
          assert |p.done| == i;
          assert all[..i + 1][..|p.done|] == all[..i];
          PassStopsForGood(all, i + 1, ids, step, stopOnRaise);
          return;
        }
        p := next;
        rows := p.done + all[i + 1..];
        i := i + 1;
      }
      assert all[..i] == all;
    }

    /** `bulk_confirm`: an exception from `confirm` ends the request with a server error. */
    method BulkConfirm(ids: set<int>, w: Workflow) returns (r: Result<seq<int>, ()>)
      modifies this
      ensures var p := Pass(old(rows), ids, ConfirmStep(w), true);
              rows == TableAfter(old(rows), p) && (r.Ok? <==> !p.stopped) && (r.Ok? ==> r.value == p.updated)
    {
      var p := RunPass(ids, ConfirmStep(w), true);
      r := if p.stopped then Err(()) else Ok(p.updated);
    }

    /** `bulk_cancel`: as `bulk_confirm`, with the cancel guard and method. */
    method BulkCancel(ids: set<int>, w: Workflow) returns (r: Result<seq<int>, ()>)
      modifies this
      ensures var p := Pass(old(rows), ids, CancelStep(w), true);
              rows == TableAfter(old(rows), p) && (r.Ok? <==> !p.stopped) && (r.Ok? ==> r.value == p.updated)
    {
      var p := RunPass(ids, CancelStep(w), true);
      r := if p.stopped then Err(()) else Ok(p.updated);
    }

    /** `bulk_status`: an order whose transition raises is skipped; the request always succeeds. */
    method BulkStatus(ids: set<int>, status: Option<string>, w: Workflow) returns (changed: seq<int>)
      modifies this
      ensures var p := Pass(old(rows), ids, StatusStep(w, status), false);
              rows == TableAfter(old(rows), p) && changed == p.updated
      ensures |rows| == |old(rows)|
    {
      var p := RunPass(ids, StatusStep(w, status), false);
      changed := p.updated;
    }
  }

  /** Once a pass has stopped, later rows do not restart it. */
  lemma {:induction false} PassStopsForGood(rows: seq<Order>, k: nat, ids: set<int>, step: Order -> Step, stopOnRaise: bool)
    requires k <= |rows|
    requires Pass(rows[..k], ids, step, stopOnRaise).stopped
    ensures Pass(rows, ids, step, stopOnRaise) == Pass(rows[..k], ids, step, stopOnRaise)
    decreases |rows| - k
  {
    if k < |rows| {
      assert rows[..k + 1][..k] == rows[..k];
      PassStopsForGood(rows, k + 1, ids, step, stopOnRaise);
    } else {
      assert rows[..k] == rows;
    }
  }

  // ------------------------------------------------------------ single transitions

  datatype Reply = Ok200(order: Order) | Bad400(detail: string) | Error500

  /** `confirm` / `cancel` / `deliver` on one order: a failing guard is a 400 with the given detail. */
  function SingleTransition(o: Order, guard: Order -> bool, act: Order -> Outcome, detail: string): (r: Reply)
    ensures !guard(o) <==> r == Bad400(detail)
    ensures r.Ok200? <==> guard(o) && act(o).Done?
    ensures r.Ok200? ==> r.order == act(o).order
  {
    if !guard(o) then Bad400(detail)
    else match act(o)
      case Done(n) => Ok200(n)
      case Raised => Error500
  }
}
