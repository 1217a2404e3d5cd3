/**
 * The reports hub: the catalogue of reports grouped by category, the list
 * narrowed by a search text and a category, the favourite reports, the
 * recently opened ones, and the report shown.
 *
 * The filter panel's two values are strings; an unset or empty one does
 * not filter.
 */
module ReportsHub {
  import opened Seqs
  import opened Text

  datatype Category = Category(name: string, reports: seq<string>)

  /** One listed report with the category it is filed under. */
  datatype Entry = Entry(cat: string, name: string)

  /** The catalogue, in declaration order. */
  const Categories: seq<Category> := [
    Category("Sales", ["Sales Report", "Customer Statement"]),
    Category("Inventory", ["Inventory Report"]),
    Category("Accounting", ["Profit & Loss", "GST Report"]),
    Category("Custom", ["Report Builder"])
  ]

  /** At most this many recently opened reports are remembered. */
  const RecentCap: nat := 8

  /** The report shown when the hub opens. */
  const InitialActive: string := "Sales Report"

  function EntriesOf(c: Category): (r: seq<Entry>)
    ensures |r| == |c.reports|
    ensures forall i :: 0 <= i < |r| ==> r[i] == Entry(c.name, c.reports[i])
  {
    Map(c.reports, (name: string) => Entry(c.name, name))
  }

  /** `allReports`: every category's reports, tagged with the category, one category after another. */
  function AllReports(cats: seq<Category>): seq<Entry>
  {
    if cats == [] then [] else AllReports(cats[..|cats| - 1]) + EntriesOf(cats[|cats| - 1])
  }

  /** An entry is listed exactly when its category holds it. */
  lemma {:induction false} AllReportsMembers(cats: seq<Category>)
    ensures forall e :: e in AllReports(cats) <==> exists i :: 0 <= i < |cats| && e in EntriesOf(cats[i])
  {
    if cats != [] {
      var init := cats[..|cats| - 1];
      AllReportsMembers(init);
      forall e ensures e in AllReports(cats) <==> exists i :: 0 <= i < |cats| && e in EntriesOf(cats[i]) {
        if e in AllReports(init) {
          var i :| 0 <= i < |init| && e in EntriesOf(init[i]);
          assert cats[i] == init[i];
        }
        if exists i :: 0 <= i < |cats| && e in EntriesOf(cats[i]) {
          var i :| 0 <= i < |cats| && e in EntriesOf(cats[i]);
          if i < |cats| - 1 {
            assert cats[i] == init[i];
          }
        }
      }
    }
  }

  /** Flattening keeps category order: the catalogue split in two flattens to the two halves, in turn. */
  lemma {:induction false} AllReportsAppend(a: seq<Category>, b: seq<Category>)
    ensures AllReports(a + b) == AllReports(a) + AllReports(b)
    decreases |b|
  {
    if b == [] {
      assert a + b == a;
    } else {
      var init := b[..|b| - 1];
      assert (a + b)[..|a + b| - 1] == a + init;
      assert (a + b)[|a + b| - 1] == b[|b| - 1];
      AllReportsAppend(a, init);
      assert AllReports(a + b) == AllReports(a + init) + EntriesOf(b[|b| - 1]);
    }
  }

  /** The catalogue lists six reports, in declaration order. */
  lemma CatalogueOrder()
    ensures AllReports(Categories) == [
              Entry("Sales", "Sales Report"), Entry("Sales", "Customer Statement"),
              Entry("Inventory", "Inventory Report"),
              Entry("Accounting", "Profit & Loss"), Entry("Accounting", "GST Report"),
              Entry("Custom", "Report Builder")]
  {
    assert Categories == [Categories[0]] + [Categories[1]] + [Categories[2]] + [Categories[3]];
    AllReportsAppend([Categories[0]] + [Categories[1]] + [Categories[2]], [Categories[3]]);
    AllReportsAppend([Categories[0]] + [Categories[1]], [Categories[2]]);
    AllReportsAppend([Categories[0]], [Categories[1]]);
  }

  /** The search text and the category each narrow the list only when set. */
  predicate Matches(e: Entry, q: string, category: string)
  {
    (q == "" || ContainsIgnoringCase(e.name, q)) && (category == "" || e.cat == category)
  }

  /** `filtered`: the catalogue entries matching both filters, in catalogue order. */
  function Filtered(all: seq<Entry>, q: string, category: string): (r: seq<Entry>)
    ensures forall e :: e in r <==> e in all && Matches(e, q, category)
    ensures |r| <= |all|
  {
    Filter(all, (e: Entry) => Matches(e, q, category))
  }

  /** With neither filter set the whole catalogue is listed. */
  lemma NoFilterListsAll(all: seq<Entry>)
    ensures Filtered(all, "", "") == all
  {
    FilterKeepsAll(all, (e: Entry) => Matches(e, "", ""));
  }

  /** What the main pane shows. */
  datatype View = SalesReport | InventoryReport | ProfitLoss | GstReport | CustomerStatement | ReportBuilder | Placeholder

  /** `renderActive`: the named report, or the "Select a report" placeholder for any other name. */
  function Render(active: string): (v: View)
    ensures v == Placeholder <==> active !in {"Sales Report", "Inventory Report", "Profit & Loss", "GST Report", "Customer Statement", "Report Builder"}
  {
    match active
    case "Sales Report" => SalesReport
    case "Inventory Report" => InventoryReport
    case "Profit & Loss" => ProfitLoss
    case "GST Report" => GstReport
    case "Customer Statement" => CustomerStatement
    case "Report Builder" => ReportBuilder
    case _ => Placeholder
  }

  /** Every report the catalogue lists has a view of its own. */
  lemma EveryListedReportRenders()
    ensures forall e :: e in AllReports(Categories) ==> Render(e.name) != Placeholder
  {
    CatalogueOrder();
  }

  /** `toggleFav`: an absent report is appended, a present one removed. */
  function ToggleFavourite(favs: seq<string>, r: string): (out: seq<string>)
    ensures r in out <==> r !in favs
    ensures forall x :: x != r ==> (x in out <==> x in favs)
  {
    if r in favs then Filter(favs, (x: string) => x != r) else favs + [r]
  }

  /** Toggling keeps the favourites free of repeats. */
  lemma ToggleFavouriteDistinct(favs: seq<string>, r: string)
    requires Distinct(favs)
    ensures Distinct(ToggleFavourite(favs, r))
  {
    if r in favs {
      FilterDistinct(favs, (x: string) => x != r, (x: string) => x);
    }
  }

  /** Marking and unmarking a report restores the favourites. */
  lemma ToggleFavouriteTwice(favs: seq<string>, r: string)
    requires r !in favs
    ensures ToggleFavourite(ToggleFavourite(favs, r), r) == favs
  {
    var p := (x: string) => x != r;
    FilterSnoc(favs, r, p);
    FilterKeepsAll(favs, p);
  }

  function Name(x: string): string { x }

  class Hub {
    var active: string
    var favorites: seq<string>
    var recent: seq<string>
    var q: string
    var category: string

    predicate Valid()
      reads this
    {
      Distinct(favorites) && DistinctBy(recent, Name) && |recent| <= RecentCap
    }

    constructor()
      ensures active == InitialActive && favorites == [] && recent == [] && q == "" && category == ""
      ensures Valid()
    {
      active := InitialActive;
      favorites := [];
      recent := [];
      q := "";
      category := "";
    }

    method ToggleFav(r: string)
      requires Valid()
      modifies this
      ensures favorites == ToggleFavourite(old(favorites), r)
      ensures active == old(active) && recent == old(recent) && q == old(q) && category == old(category)
      ensures Valid()
    {
      ToggleFavouriteDistinct(favorites, r);
      favorites := ToggleFavourite(favorites, r);
    }

    /** `openReport`: shows the report and puts it first among the eight most recent, without repeats. */
    method OpenReport(r: string)
      requires Valid()
      modifies this
      ensures active == r
      ensures recent == MoveToFront(old(recent), r, Name, RecentCap)
      ensures favorites == old(favorites) && q == old(q) && category == old(category)
      ensures Valid()
    {
      active := r;
      MoveToFrontDistinct(recent, r, Name, RecentCap);
      recent := MoveToFront(recent, r, Name, RecentCap);
    }

    method SetFilters(search: string, cat: string)
      modifies this
      ensures q == search && category == cat
      ensures active == old(active) && favorites == old(favorites) && recent == old(recent)
    {
      q := search;
      category := cat;
    }

    /** The reports listed in the side panel. */
    function Listed(): (r: seq<Entry>)
      reads this
      ensures forall e :: e in r <==> Matches(e, q, category) && exists i :: 0 <= i < |Categories| && e in EntriesOf(Categories[i])
    {
      AllReportsMembers(Categories);
      Filtered(AllReports(Categories), q, category)
    }
  }

  /** Opening the same report twice in a row leaves the recent list as one opening did. */
  lemma OpenReportTwice(recent: seq<string>, r: string)
    ensures MoveToFront(MoveToFront(recent, r, Name, RecentCap), r, Name, RecentCap) == MoveToFront(recent, r, Name, RecentCap)
  {
    MoveToFrontTwice(recent, r, Name, RecentCap);
  }
}
