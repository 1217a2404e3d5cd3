/**
 * The API path builders, relative to the client's base URL, and the
 * normalisation of a paginated list response into one internal shape.
 */
module ApiPaths {
  import opened Wrappers
  import opened Text

  /** `withSlash`: a single trailing slash, as the REST framework expects. */
  function WithSlash(path: string): (r: string)
    ensures EndsWith(r, "/")
    ensures EndsWith(path, "/") ==> r == path
    ensures !EndsWith(path, "/") ==> r == path + "/"
  {
    if EndsWith(path, "/") then path else path + "/"
  }

  /** Adding the slash a second time changes nothing. */
  lemma WithSlashIdempotent(path: string)
    ensures WithSlash(WithSlash(path)) == WithSlash(path)
  {
  }

  const Sales: string := "sales"
  const Inventory: string := "inventory"
  const Auth: string := "auth"
  const Core: string := "core"

  /** Every endpoint a builder names; the detail endpoints carry the record id as text. */
  datatype Endpoint =
    | Login | Logout | Refresh | Profile
    | Customers | CustomerDetail(id: string) | CustomerBalance(id: string)
    | Products | ProductDetail(id: string) | InventoryRecords | InventoryDetail(id: string)
    | DashboardMetrics | GlobalSearch

  /** The text a builder passes to `withSlash`. */
  function RawPath(e: Endpoint): (p: string)
    ensures StartsWith(p, "/")
  {
    match e
    case Login => "/" + Auth + "/login"
    case Logout => "/" + Auth + "/logout"
    case Refresh => "/" + Auth + "/refresh"
    case Profile => "/" + Auth + "/profile"
    case Customers => "/" + Sales + "/customers"
    case CustomerDetail(id) => "/" + Sales + "/customers/" + id
    case CustomerBalance(id) => "/" + Sales + "/customers/" + id + "/balance"
    case Products => "/" + Inventory + "/products"
    case ProductDetail(id) => "/" + Inventory + "/products/" + id
    case InventoryRecords => "/" + Inventory + "/inventory"
    case InventoryDetail(id) => "/" + Inventory + "/inventory/" + id
    case DashboardMetrics => "/" + Core + "/dashboard/metrics"
    case GlobalSearch => "/" + Core + "/search"
  }

  /** Every built path starts and ends with a slash. */
  function PathOf(e: Endpoint): (p: string)
    ensures StartsWith(p, "/") && EndsWith(p, "/")
  {
    WithSlash(RawPath(e))
  }

  /** A customer's detail path is the customer list path followed by the id and a slash. */
  lemma DetailExtendsList(id: string)
    requires !EndsWith(id, "/") && id != ""
    ensures PathOf(CustomerDetail(id)) == PathOf(Customers) + id + "/"
  {
    var list := RawPath(Customers);
    var raw := RawPath(CustomerDetail(id));
    assert raw == list + "/" + id;
    SlashEnd(list);
    SlashEnd(id);
    SlashEnd(raw);
    assert raw[|raw| - 1] == id[|id| - 1];
    assert list[|list| - 1] == 's';
  }

  /** Ending with a slash is a test of the last character. */
  lemma SlashEnd(s: string)
    requires s != ""
    ensures EndsWith(s, "/") <==> s[|s| - 1] == '/'
  {
    assert s[|s| - 1..] == [s[|s| - 1]];
  }

  /** An empty id makes the detail path the list path itself. */
  lemma EmptyIdDetailIsList()
    ensures PathOf(CustomerDetail("")) == PathOf(Customers)
    ensures PathOf(ProductDetail("")) == PathOf(Products)
  {
    assert RawPath(CustomerDetail("")) == RawPath(Customers) + "/";
    assert RawPath(Customers)[|RawPath(Customers)| - 1] == 's';
    assert RawPath(ProductDetail("")) == RawPath(Products) + "/";
    assert RawPath(Products)[|RawPath(Products)| - 1] == 's';
  }

  /**
   * A list response in either shape: the REST framework's `results` and
   * `count`, or the internal `items` (`None` when it is not an array).
   * An absent number is `None`.
   */
  datatype Paginated<T> = Paginated(results: Option<seq<T>>, count: Option<int>, items: Option<seq<T>>,
                                    total: Option<int>, page: Option<int>, pageSize: Option<int>)

  /** The list query's paging parameters; absent is `None`. */
  datatype ListQuery = ListQuery(page: Option<int>, pageSize: Option<int>)

  datatype Normalized<T> = AsGiven(data: Paginated<T>) | Page(items: seq<T>, total: int, page: int, pageSize: int)

  /** `x || d` for a number that may be absent: absent and 0 both give `d`. */
  function OrDefault(x: Option<int>, d: int): (r: int)
    ensures x.Some? && x.value != 0 ==> r == x.value
    ensures x.None? || x.value == 0 ==> r == d
  {
    if x.Some? && x.value != 0 then x.value else d
  }

  /**
   * `normalizePaginated`: data already holding an `items` array is returned
   * as it is; otherwise the results become the items, page 1 and 25 per
   * page by default, and the total is the count unless that is absent or 0.
   */
  function Normalize<T>(data: Paginated<T>, query: ListQuery): (r: Normalized<T>)
    ensures data.items.Some? <==> r.AsGiven?
    ensures r.AsGiven? ==> r.data == data
    ensures r.Page? ==> r.items == (if data.results.Some? then data.results.value else [])
    ensures r.Page? ==> r.page == OrDefault(query.page, 1) && r.pageSize == OrDefault(query.pageSize, 25)
    ensures r.Page? ==> r.total == OrDefault(data.count, |r.items|)
  {
    if data.items.Some? then AsGiven(data)
    else
      var items := if data.results.Some? then data.results.value else [];
      Page(items, OrDefault(data.count, if data.results.Some? then |data.results.value| else 0),
           OrDefault(query.page, 1), OrDefault(query.pageSize, 25))
  }

  /** The internal shape of a page, as the normaliser would receive it again. */
  function AsData<T>(n: Normalized<T>): Paginated<T>
  {
    match n
    case AsGiven(d) => d
    case Page(items, total, page, pageSize) => Paginated(None, None, Some(items), Some(total), Some(page), Some(pageSize))
  }

  /** Normalising a normalised page again returns it unchanged. */
  lemma NormalizeTwice<T>(data: Paginated<T>, q1: ListQuery, q2: ListQuery)
    ensures Normalize(AsData(Normalize(data, q1)), q2) == AsGiven(AsData(Normalize(data, q1)))
  {
  }

  /** A count of 0 is overruled by the number of results. */
  lemma ZeroCountFallsBack<T>(results: seq<T>, q: ListQuery)
    ensures Normalize(Paginated(Some(results), Some(0), None, None, None, None), q).total == |results|
  {
  }
}
