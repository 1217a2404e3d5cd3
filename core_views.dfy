/**
 * The two cross-module endpoints: the date range of the dashboard metrics
 * and the shape of the global search response.
 */
module CoreViews {
  import opened Wrappers
  import opened Text
  import opened Seqs

  // ------------------------------------------------------------ dates

  datatype Date = Date(year: int, month: int, day: int)

  predicate IsLeap(y: int)
  {
    y % 4 == 0 && (y % 100 != 0 || y % 400 == 0)
  }

  function DaysInMonth(y: int, m: int): int
  {
    if m == 2 then (if IsLeap(y) then 29 else 28)
    else if m == 4 || m == 6 || m == 9 || m == 11 then 30
    else 31
  }

  /** A date Python's `date` can hold. */
  function ValidDate(d: Date): (r: bool)
    ensures r ==> 1 <= d.day <= 31
    ensures r && d.month == 2 && d.day == 29 ==> IsLeap(d.year)
    ensures 1 <= d.year <= 9999 && 1 <= d.month <= 12 && 1 <= d.day <= 28 ==> r
  {
    1 <= d.year <= 9999 && 1 <= d.month <= 12 && 1 <= d.day <= DaysInMonth(d.year, d.month)
  }

  predicate DigitsAt(s: string, lo: nat, hi: nat)
    requires lo <= hi <= |s|
  {
    forall i :: lo <= i < hi ==> IsDigit(s[i])
  }

  /** The `YYYY-MM-DD` shape, before any range check. */
  predicate IsoShape(s: string)
  {
    |s| == 10 && s[4] == '-' && s[7] == '-' && DigitsAt(s, 0, 4) && DigitsAt(s, 5, 7) && DigitsAt(s, 8, 10)
  }

  /** `date.fromisoformat` on the `YYYY-MM-DD` form: `None` is its `ValueError`. */
  function ParseIsoDate(s: string): (r: Option<Date>)
    ensures r.Some? ==> ValidDate(r.value) && IsoShape(s)
  {
    if !IsoShape(s) then None
    else
      var d := Date(DigitsValue(s[..4]), DigitsValue(s[5..7]), DigitsValue(s[8..]));
      if ValidDate(d) then Some(d) else None
  }

  /** `date.isoformat()`. */
  function FormatIsoDate(d: Date): (s: string)
    requires ValidDate(d)
    ensures IsoShape(s)
  {
    ZeroPad(d.year, 4) + "-" + ZeroPad(d.month, 2) + "-" + ZeroPad(d.day, 2)
  }

  /** Every valid date reads back from its ISO text. */
  lemma ParseFormat(d: Date)
    requires ValidDate(d)
    ensures ParseIsoDate(FormatIsoDate(d)) == Some(d)
  {
    var s := FormatIsoDate(d);
    assert s[..4] == ZeroPad(d.year, 4);
    assert s[5..7] == ZeroPad(d.month, 2);
    assert s[8..] == ZeroPad(d.day, 2);
    ZeroPadValue(d.year, 4);
    ZeroPadValue(d.month, 2);
    ZeroPadValue(d.day, 2);
  }

  lemma {:induction false} PadDigits(t: string)
    requires forall i :: 0 <= i < |t| ==> IsDigit(t[i])
    ensures ZeroPad(DigitsValue(t), |t|) == t
  {
    if t != [] {
      var init := t[..|t| - 1];
      var v := DigitsValue(init);
      var c := t[|t| - 1];
      PadDigits(init);
      assert (v * 10 + DigitValue(c)) / 10 == v;
      assert (v * 10 + DigitValue(c)) % 10 == DigitValue(c);
      assert DigitChar(DigitValue(c)) == c;
      assert init + [c] == t;
    }
  }

  /** The only text that parses to a date is that date's ISO text. */
  lemma FormatParse(s: string)
    requires ParseIsoDate(s).Some?
    ensures FormatIsoDate(ParseIsoDate(s).value) == s
  {
    PadDigits(s[..4]);
    PadDigits(s[5..7]);
    PadDigits(s[8..]);
    assert s == s[..4] + "-" + s[5..7] + "-" + s[8..];
  }

  /** A query parameter is used only when present and non-empty (`if start_param`). */
  function ParamDate(param: Option<string>): (r: Option<Date>)
    ensures r.Some? ==> param.Some? && ValidDate(r.value) && FormatIsoDate(r.value) == param.value
    ensures param.None? || param.value == "" ==> r.None?
  {
    if param.Some? && param.value != "" then
      var d := ParseIsoDate(param.value);
      if d.Some? then FormatParse(param.value); d else d
    else None
  }

  /**
   * The `dashboard_metrics` range: each bound is the parsed parameter, or its
   * default (the first of the current month, today) when the parameter is
   * missing, empty or not a date.
   */
  function DashboardRange(start: Option<string>, end: Option<string>, today: Date): (r: (Date, Date))
    ensures ParamDate(start).Some? ==> r.0 == ParamDate(start).value
    ensures ParamDate(start).None? ==> r.0 == Date(today.year, today.month, 1)
    ensures ParamDate(end).Some? ==> r.1 == ParamDate(end).value
    ensures ParamDate(end).None? ==> r.1 == today
  {
    var s := match ParamDate(start) case Some(d) => d case None => today.(day := 1);
    var e := match ParamDate(end) case Some(d) => d case None => today;
    (s, e)
  }

  /** With no parameters the range is the month to date, and both ends are real dates. */
  lemma DefaultRangeIsMonthToDate(today: Date)
    requires ValidDate(today)
    ensures var r := DashboardRange(None, None, today);
            r.0.year == today.year && r.0.month == today.month && r.0.day == 1 && r.1 == today
            && ValidDate(r.0) && ValidDate(r.1)
  {
  }

  /** A well-formed parameter is taken as given. */
  lemma GivenDatesAreUsed(d1: Date, d2: Date, today: Date)
    requires ValidDate(d1) && ValidDate(d2)
    ensures DashboardRange(Some(FormatIsoDate(d1)), Some(FormatIsoDate(d2)), today) == (d1, d2)
  {
    ParseFormat(d1);
    ParseFormat(d2);
  }

  /** A day that does not exist falls back to the default rather than failing. */
  lemma ImpossibleDayFallsBack(today: Date)
    ensures DashboardRange(Some("2023-02-29"), None, today).0 == today.(day := 1)
  {
    var s := "2023-02-29";
    assert IsoShape(s);
    assert s[..4] == "2023" && s[5..7] == "02" && s[8..] == "29";
    assert "2023"[..3] == "202" && "202"[..2] == "20" && "20"[..1] == "2" && "2"[..0] == "";
    assert "02"[..1] == "0" && "0"[..0] == "" && "29"[..1] == "2";
    assert DigitsValue("2023") == 2023;
  }

  // ------------------------------------------------------------ global search

  datatype Customer = Customer(id: int, code: string, name: string)
  datatype Product = Product(id: int, sku: string, name: string)
  datatype Order = Order(id: int, number: string, status: string)
  datatype Invoice = Invoice(id: int, number: string, status: string)

  /** One result: its `type`, its `id` and the listed fields of its type, in order. */
  datatype Hit = Hit(kind: string, id: int, fields: seq<(string, string)>)

  /** `int(request.query_params.get('limit', 10))`; `BadLimit` is its `ValueError`. */
  datatype LimitParam = NoLimit | BadLimit | Limit(n: int)

  datatype SearchResponse = NoQuery | Found(query: string, count: nat, results: seq<Hit>) | ServerError

  function CustomerHit(c: Customer): Hit { Hit("customer", c.id, [("customer_code", c.code), ("name", c.name)]) }
  function ProductHit(p: Product): Hit { Hit("product", p.id, [("sku", p.sku), ("name", p.name)]) }
  function OrderHit(o: Order): Hit { Hit("order", o.id, [("order_number", o.number), ("status", o.status)]) }
  function InvoiceHit(v: Invoice): Hit { Hit("invoice", v.id, [("invoice_number", v.number), ("status", v.status)]) }

  /** The shape `serialize` gives each type. */
  predicate WellShaped(h: Hit)
  {
    (h.kind == "customer" && |h.fields| == 2 && h.fields[0].0 == "customer_code" && h.fields[1].0 == "name")
    || (h.kind == "product" && |h.fields| == 2 && h.fields[0].0 == "sku" && h.fields[1].0 == "name")
    || (h.kind == "order" && |h.fields| == 2 && h.fields[0].0 == "order_number" && h.fields[1].0 == "status")
    || (h.kind == "invoice" && |h.fields| == 2 && h.fields[0].0 == "invoice_number" && h.fields[1].0 == "status")
  }

  /** The `icontains` conditions of each category. */
  predicate CustomerMatches(c: Customer, term: string) { ContainsIgnoringCase(c.name, term) || ContainsIgnoringCase(c.code, term) }
  predicate ProductMatches(p: Product, term: string) { ContainsIgnoringCase(p.name, term) || ContainsIgnoringCase(p.sku, term) }
  predicate OrderMatches(o: Order, term: string) { ContainsIgnoringCase(o.number, term) }
  predicate InvoiceMatches(v: Invoice, term: string) { ContainsIgnoringCase(v.number, term) }

  function CustomerTest(term: string): Customer -> bool { (c: Customer) => CustomerMatches(c, term) }
  function ProductTest(term: string): Product -> bool { (p: Product) => ProductMatches(p, term) }
  function OrderTest(term: string): Order -> bool { (o: Order) => OrderMatches(o, term) }
  function InvoiceTest(term: string): Invoice -> bool { (v: Invoice) => InvoiceMatches(v, term) }

  /** `serialize(qs.filter(...)[:n])`: the first `n` matches of `p` in queryset order, each serialised by `f`. */
  function FirstMatches<T>(s: seq<T>, p: T -> bool, n: nat, f: T -> Hit): (r: seq<Hit>)
    ensures |r| == if n < |Filter(s, p)| then n else |Filter(s, p)|
    ensures forall i :: 0 <= i < |r| ==> r[i] == f(Filter(s, p)[i])
  {
    Map(Take(Filter(s, p), n), f)
  }

  /** The concatenated hits before the final cut: at most `n` per category, in category order. */
  function AllHits(term: string, n: nat, customers: seq<Customer>, products: seq<Product>,
                   orders: seq<Order>, invoices: seq<Invoice>): (r: seq<Hit>)
    ensures r == FirstMatches(customers, CustomerTest(term), n, CustomerHit)
                 + FirstMatches(products, ProductTest(term), n, ProductHit)
                 + FirstMatches(orders, OrderTest(term), n, OrderHit)
                 + FirstMatches(invoices, InvoiceTest(term), n, InvoiceHit)
    ensures |r| <= 4 * n
    ensures forall h :: h in r ==> WellShaped(h)
    ensures forall h :: h in r && h.kind == "customer" ==>
              exists c :: c in customers && c.id == h.id && CustomerMatches(c, term)
    ensures forall h :: h in r && h.kind == "product" ==>
              exists p :: p in products && p.id == h.id && ProductMatches(p, term)
    ensures forall h :: h in r && h.kind == "order" ==>
              exists o :: o in orders && o.id == h.id && OrderMatches(o, term)
    ensures forall h :: h in r && h.kind == "invoice" ==>
              exists v :: v in invoices && v.id == h.id && InvoiceMatches(v, term)
  {
    var cs := Map(Take(Filter(customers, CustomerTest(term)), n), CustomerHit);
    var ps := Map(Take(Filter(products, ProductTest(term)), n), ProductHit);
    var os := Map(Take(Filter(orders, OrderTest(term)), n), OrderHit);
    var vs := Map(Take(Filter(invoices, InvoiceTest(term)), n), InvoiceHit);
    MapTakeFilterSource(customers, CustomerTest(term), n, CustomerHit);
    MapTakeFilterSource(products, ProductTest(term), n, ProductHit);
    MapTakeFilterSource(orders, OrderTest(term), n, OrderHit);
    MapTakeFilterSource(invoices, InvoiceTest(term), n, InvoiceHit);
    HitsOfKind(cs, ps, os, vs);
    cs + ps + os + vs
  }

  /** Each serialised list carries only its own type. */
  lemma HitsOfKind(cs: seq<Hit>, ps: seq<Hit>, os: seq<Hit>, vs: seq<Hit>)
    requires forall h :: h in cs ==> h.kind == "customer"
    requires forall h :: h in ps ==> h.kind == "product"
    requires forall h :: h in os ==> h.kind == "order"
    requires forall h :: h in vs ==> h.kind == "invoice"
    ensures forall h :: h in cs + ps + os + vs ==>
              (h.kind == "customer" ==> h in cs) && (h.kind == "product" ==> h in ps)
              && (h.kind == "order" ==> h in os) && (h.kind == "invoice" ==> h in vs)
  {
  }

  /**
   * `global_search`: a blank query answers with no results; otherwise the
   * hits of the four categories, customers first, cut to `limit`, with
   * `count` taken before the cut.
   */
  function GlobalSearch(q: Option<string>, limit: LimitParam, customers: seq<Customer>, products: seq<Product>,
                        orders: seq<Order>, invoices: seq<Invoice>): (r: SearchResponse)
    ensures r.NoQuery? <==> !limit.BadLimit? && Strip(q.GetOr("")) == ""
    ensures r.ServerError? <==> limit.BadLimit? || (Strip(q.GetOr("")) != "" && limit.Limit? && limit.n < 0)
    ensures r.Found? ==>
              var n := if limit.Limit? then limit.n else 10;
              r.query == Strip(q.GetOr("")) && |r.results| <= n && |r.results| <= r.count <= 4 * n
              && forall h :: h in r.results ==> WellShaped(h)
    ensures r.Found? ==>
              var n := if limit.Limit? then limit.n else 10;
              n >= 0 && r.count == |AllHits(r.query, n, customers, products, orders, invoices)|
              && r.results == Take(AllHits(r.query, n, customers, products, orders, invoices), n)
  {
    var term := Strip(q.GetOr(""));
    if limit.BadLimit? then ServerError
    else
      var n := if limit.Limit? then limit.n else 10;
      if term == "" then NoQuery
      else if n < 0 then ServerError
      else
        var all := AllHits(term, n, customers, products, orders, invoices);
        var results := Take(all, n);
        assert forall h :: h in results ==> h in all;
        Found(term, |all|, results)
  }

  /** Every customer in the results is a customer whose name or code contains the query, ignoring case. */
  lemma SearchHitsMatch(q: Option<string>, limit: LimitParam, customers: seq<Customer>, products: seq<Product>,
                        orders: seq<Order>, invoices: seq<Invoice>)
    ensures var r := GlobalSearch(q, limit, customers, products, orders, invoices);
            r.Found? ==> forall h :: h in r.results && h.kind == "customer" ==>
              exists c :: c in customers && c.id == h.id && CustomerMatches(c, r.query)
  {
  }

  /**
   * `count` is taken before the cut: with enough customer and product hits it
   * exceeds the number of results returned.
   */
  lemma CountCanExceedResults(term: string, n: int, customers: seq<Customer>, products: seq<Product>,
                              orders: seq<Order>, invoices: seq<Invoice>)
    requires Strip(term) != "" && n >= 1
    requires |Filter(customers, CustomerTest(Strip(term)))| >= n
    requires |Filter(products, ProductTest(Strip(term)))| >= n
    ensures var r := GlobalSearch(Some(term), Limit(n), customers, products, orders, invoices);
            r.Found? && r.count >= 2 * n && |r.results| == n
  {
    var t := Strip(term);
    var r := GlobalSearch(Some(term), Limit(n), customers, products, orders, invoices);
    assert Some(term).GetOr("") == term;
    assert r.Found? && r.query == t;
    AllHitsLength(t, n, customers, products, orders, invoices);
  }

  /** The hits hold up to `n` matches of each kind, so at least as many as the first two kinds give. */
  lemma AllHitsLength(term: string, n: nat, customers: seq<Customer>, products: seq<Product>,
                      orders: seq<Order>, invoices: seq<Invoice>)
    ensures |AllHits(term, n, customers, products, orders, invoices)| >=
            |Take(Filter(customers, CustomerTest(term)), n)| + |Take(Filter(products, ProductTest(term)), n)|
  {
    var cs := Map(Take(Filter(customers, CustomerTest(term)), n), CustomerHit);
    var ps := Map(Take(Filter(products, ProductTest(term)), n), ProductHit);
    var os := Map(Take(Filter(orders, OrderTest(term)), n), OrderHit);
    var vs := Map(Take(Filter(invoices, InvoiceTest(term)), n), InvoiceHit);
    assert AllHits(term, n, customers, products, orders, invoices) == cs + ps + os + vs;
  }
}
