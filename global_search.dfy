/**
 * The command palette opened with Ctrl/Cmd-K: the result list for the
 * current query, the recently chosen items, and keyboard navigation over
 * the highlighted result.
 *
 * The `onNavigate` callback is modelled as the route a step returns; the
 * focus timers are left out.
 */
module GlobalSearch {
  import opened Wrappers
  import opened Seqs
  import opened Text

  /** A palette entry; `title` is the displayed label. */
  datatype SearchItem = SearchItem(id: string, kind: string, title: string, route: string)

  /** At most this many results are listed. */
  const ResultLimit: nat := 10
  /** At most this many recently chosen items are remembered. */
  const RecentCap: nat := 8

  /** The built-in suggestions shown before anything was chosen. */
  const Suggestions: seq<SearchItem> := [
    SearchItem("1", "Customer", "Customer 1", "/customers/1"),
    SearchItem("2", "Product", "Product 5", "/products"),
    SearchItem("3", "Invoice", "Invoice INV-1003", "/invoices"),
    SearchItem("4", "Report", "Sales Report", "/reports")
  ]

  function Id(x: SearchItem): string { x.id }

  predicate LabelMatches(query: string, x: SearchItem)
  {
    ContainsIgnoringCase(x.title, query)
  }

  /**
   * `results`: for a query, the suggestions whose label contains it
   * case-insensitively; without one, the recent items if there are any,
   * else the suggestions; either way the first ten.
   */
  function Results(query: string, recent: seq<SearchItem>, suggestions: seq<SearchItem>): (r: seq<SearchItem>)
    ensures |r| <= ResultLimit
    ensures query != "" ==> forall x :: x in r ==> x in suggestions && LabelMatches(query, x)
    ensures query == "" && recent != [] ==> |r| <= |recent| && r == recent[..|r|] && (|r| == ResultLimit || r == recent)
    ensures query == "" && recent == [] ==> |r| <= |suggestions| && r == suggestions[..|r|] && (|r| == ResultLimit || r == suggestions)
  {
    var source := if query != "" then Filter(suggestions, (x: SearchItem) => LabelMatches(query, x))
                  else if |recent| > 0 then recent else suggestions;
    Take(source, ResultLimit)
  }

  /** With no more suggestions than fit the list, every matching suggestion is listed. */
  lemma FewSuggestionsAllMatchesShown(query: string, recent: seq<SearchItem>, suggestions: seq<SearchItem>)
    requires query != "" && |suggestions| <= ResultLimit
    ensures forall x :: x in suggestions && LabelMatches(query, x) ==> x in Results(query, recent, suggestions)
  {
    var f := Filter(suggestions, (x: SearchItem) => LabelMatches(query, x));
    assert Take(f, ResultLimit) == f;
  }

  /** Before anything is chosen, the empty query lists all four suggestions. */
  lemma FreshPaletteListsSuggestions()
    ensures Results("", [], Suggestions) == Suggestions
  {
  }

  /** ArrowDown: one further down, but never past the last result. */
  function ArrowDown(active: int, count: nat): int
  {
    if count - 1 < active + 1 then count - 1 else active + 1
  }

  /** ArrowUp: one further up, but never above the first result. */
  function ArrowUp(active: int): int
  {
    if active - 1 < 0 then 0 else active - 1
  }

  /** The arrows keep a highlighted result highlighted, moving by at most one. */
  lemma ArrowsStayInResults(active: int, count: nat)
    requires 0 <= active < count
    ensures 0 <= ArrowDown(active, count) < count && ArrowDown(active, count) - active <= 1
    ensures 0 <= ArrowUp(active) < count && active - ArrowUp(active) <= 1
  {
  }

  /** With no results ArrowDown leaves nothing highlighted, so Enter does nothing; ArrowUp restores 0. */
  lemma ArrowDownOnNoResults(active: int)
    requires active >= 0
    ensures ArrowDown(active, 0) == -1 && ArrowUp(ArrowDown(active, 0)) == 0
  {
  }

  class Palette {
    const suggestions: seq<SearchItem>
    var open: bool
    var query: string
    var recent: seq<SearchItem>
    var active: int

    constructor(suggestions: seq<SearchItem>)
      ensures this.suggestions == suggestions
      ensures !open && query == "" && recent == [] && active == 0
    {
      this.suggestions := suggestions;
      open := false;
      query := "";
      recent := [];
      active := 0;
    }

    function Shown(): seq<SearchItem>
      reads this
    {
      Results(query, recent, suggestions)
    }

    /** Recent items are told apart by id. */
    predicate Valid()
      reads this
    {
      DistinctBy(recent, Id) && |recent| <= RecentCap
    }

    /**
     * `choose`: the item goes first in `recent` (its earlier copy removed,
     * the list capped at eight), its route is navigated to, the palette
     * closes and the query is cleared.
     */
    method Choose(item: SearchItem) returns (route: string)
      requires Valid()
      modifies this
      ensures Valid()
      ensures recent == MoveToFront(old(recent), item, Id, RecentCap)
      ensures route == item.route && !open && query == "" && active == old(active)
    {
      MoveToFrontDistinct(recent, item, Id, RecentCap);
      recent := MoveToFront(recent, item, Id, RecentCap);
      route := item.route;
      open := false;
      query := "";
    }

    /** Typing in the input replaces the query and highlights the first result. */
    method EditQuery(q: string)
      modifies this
      ensures query == q && active == 0
      ensures open == old(open) && recent == old(recent)
    {
      query := q;
      active := 0;
    }

    /** The "Search..." button opens the palette. */
    method OpenPalette()
      modifies this
      ensures open && query == old(query) && recent == old(recent) && active == old(active)
    {
      open := true;
    }

    /**
     * The window's keydown handler. Ctrl/Cmd-K toggles the palette; while it
     * is open the arrows move the highlight, Enter chooses the highlighted
     * result when there is one, and Escape closes.
     */
    method KeyDown(ctrl: bool, meta: bool, key: string) returns (navigated: Option<string>)
      requires Valid()
      modifies this
      ensures Valid()
      ensures (ctrl || meta) && Lower(key) == "k" ==>
                open == !old(open) && navigated == None && recent == old(recent) && query == old(query) && active == old(active)
      ensures !((ctrl || meta) && Lower(key) == "k") && !old(open) ==>
                navigated == None && !open && recent == old(recent) && query == old(query) && active == old(active)
      ensures !((ctrl || meta) && Lower(key) == "k") && old(open) ==>
                var shown := Results(old(query), old(recent), suggestions);
                (key == "ArrowDown" ==>
                      navigated == None && open && active == ArrowDown(old(active), |shown|)
                      && query == old(query) && recent == old(recent))
                && (key == "ArrowUp" ==>
                      navigated == None && open && active == ArrowUp(old(active))
                      && query == old(query) && recent == old(recent))
                && (key == "Enter" && 0 <= old(active) < |shown| ==>
                      navigated == Some(shown[old(active)].route) && !open && query == "" && active == old(active)
                      && recent == MoveToFront(old(recent), shown[old(active)], Id, RecentCap))
                && (key == "Enter" && !(0 <= old(active) < |shown|) ==>
                      navigated == None && open && recent == old(recent) && query == old(query) && active == old(active))
                && (key == "Escape" ==>
                      navigated == None && !open && recent == old(recent) && query == old(query) && active == old(active))
                && (key !in {"ArrowDown", "ArrowUp", "Enter", "Escape"} ==>
                      navigated == None && open && recent == old(recent) && query == old(query) && active == old(active))
    {
      navigated := None;
      if (ctrl || meta) && Lower(key) == "k" {
        open := !open;
      } else if open {
        var shown := Shown();
        if key == "ArrowDown" {
          active := ArrowDown(active, |shown|);
        } else if key == "ArrowUp" {
          active := ArrowUp(active);
        } else if key == "Enter" {
          if 0 <= active < |shown| {
            var route := Choose(shown[active]);
            navigated := Some(route);
          }
        } else if key == "Escape" {
          open := false;
        }
      }
    }
  }

  /** Choosing an item twice in a row leaves the recent list as choosing it once. */
  lemma ChooseTwiceOnce(recent: seq<SearchItem>, item: SearchItem)
    ensures MoveToFront(MoveToFront(recent, item, Id, RecentCap), item, Id, RecentCap)
            == MoveToFront(recent, item, Id, RecentCap)
  {
    MoveToFrontTwice(recent, item, Id, RecentCap);
  }
}
