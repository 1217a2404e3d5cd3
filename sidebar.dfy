/**
 * The navigation sidebar: the menu items narrowed by the search box,
 * gathered into groups and sorted, and the open or closed state of each
 * group.
 */
module Sidebar {
  import opened Wrappers
  import opened Seqs
  import opened Text

  /** A menu entry; `title` is its displayed label. */
  datatype NavItem = NavItem(title: string, to: string, group: Option<string>)

  const RawItems: seq<NavItem> := [
    NavItem("Dashboard", "/", Some("General")),
    NavItem("Customers", "/customers", Some("Selling")),
    NavItem("Sales Invoices", "/sales/invoices", Some("Selling")),
    NavItem("Suppliers", "/suppliers", Some("Buying")),
    NavItem("Purchase Orders", "/purchases/orders", Some("Buying")),
    NavItem("Products", "/inventory/products", Some("Stock")),
    NavItem("Inventory", "/inventory", Some("Stock")),
    NavItem("Accounts", "/accounts", Some("Accounting")),
    NavItem("Reports", "/reports", Some("General"))
  ]

  /** An item survives the search when the box is empty or its label contains the text, ignoring case. */
  predicate Visible(search: string, i: NavItem)
  {
    search == "" || ContainsIgnoringCase(i.title, search)
  }

  /** `i.group || 'Other'`. */
  function GroupOf(i: NavItem): (g: string)
    ensures g != ""
  {
    if i.group.Some? && i.group.value != "" then i.group.value else "Other"
  }

  function VisibleTest(search: string): NavItem -> bool
  {
    (i: NavItem) => Visible(search, i)
  }

  function Shown(search: string, items: seq<NavItem>): seq<NavItem>
  {
    Filter(items, VisibleTest(search))
  }

  /** The group names in the order they first appear. */
  function GroupNames(shown: seq<NavItem>): seq<string>
  {
    Dedup(Map(shown, GroupOf))
  }

  /** The items of one group, in their order. */
  function Members(shown: seq<NavItem>, g: string): seq<NavItem>
  {
    Filter(shown, InGroup(g))
  }

  function InGroup(g: string): NavItem -> bool
  {
    (i: NavItem) => GroupOf(i) == g
  }

  type Entry = (string, seq<NavItem>)

  /** `Object.entries(map)`: the groups in insertion order. */
  function Entries(shown: seq<NavItem>): seq<Entry>
  {
    Map(GroupNames(shown), (g: string) => (g, Members(shown, g)))
  }

  function Repeat(s: string, n: nat): seq<string>
  {
    seq(n, _ => s)
  }

  /** The text the default `sort` compares an entry by: its name, then one `[object Object]` per item. */
  function EntryText(e: Entry): string
  {
    e.0 + "," + Join(Repeat("[object Object]", |e.1|), ",")
  }

  /** The `groups` the sidebar lists for a search text. */
  function Groups(search: string, items: seq<NavItem>): (r: seq<Entry>)
    ensures SortedBy(r, EntryText)
    ensures multiset(r) == multiset(Entries(Shown(search, items)))
  {
    SortBy(Entries(Shown(search, items)), EntryText)
  }

  /** Each group's entry holds exactly the shown items of that group, in their order. */
  predicate HoldsItsMembers(shown: seq<NavItem>, e: Entry)
  {
    e.1 == Members(shown, e.0)
  }

  lemma MembersOfShownName(shown: seq<NavItem>, g: string)
    requires g in GroupNames(shown)
    ensures Members(shown, g) != []
  {
    assert g in Map(shown, GroupOf);
    var j :| 0 <= j < |shown| && Map(shown, GroupOf)[j] == g;
    assert shown[j] in Members(shown, g);
  }

  /** Each listed group holds exactly the shown items of its name, in their order, and is never empty. */
  lemma GroupsHoldMembers(search: string, items: seq<NavItem>, k: nat)
    requires k < |Groups(search, items)|
    ensures var e := Groups(search, items)[k];
            HoldsItsMembers(Shown(search, items), e) && e.1 != []
  {
    var shown := Shown(search, items);
    var es := Entries(shown);
    var e := Groups(search, items)[k];
    assert e in multiset(Groups(search, items));
    assert e in multiset(es);
    var m :| 0 <= m < |es| && es[m] == e;
    MembersOfShownName(shown, GroupNames(shown)[m]);
  }

  /** A group is listed exactly when some shown item belongs to it. */
  lemma GroupListedIffUsed(search: string, items: seq<NavItem>, g: string)
    ensures (exists k :: 0 <= k < |Groups(search, items)| && Groups(search, items)[k].0 == g) <==>
            (exists i :: 0 <= i < |Shown(search, items)| && GroupOf(Shown(search, items)[i]) == g)
  {
    if exists k :: 0 <= k < |Groups(search, items)| && Groups(search, items)[k].0 == g {
      var k :| 0 <= k < |Groups(search, items)| && Groups(search, items)[k].0 == g;
      ListedIsUsed(search, items, k);
    }
    if exists i :: 0 <= i < |Shown(search, items)| && GroupOf(Shown(search, items)[i]) == g {
      var i :| 0 <= i < |Shown(search, items)| && GroupOf(Shown(search, items)[i]) == g;
      UsedIsListed(search, items, i);
    }
  }

  lemma ListedIsUsed(search: string, items: seq<NavItem>, k: nat)
    requires k < |Groups(search, items)|
    ensures exists i :: 0 <= i < |Shown(search, items)| && GroupOf(Shown(search, items)[i]) == Groups(search, items)[k].0
  {
    var shown := Shown(search, items);
    var es := Entries(shown);
    var gs := Groups(search, items);
    var names := GroupNames(shown);
    assert gs[k] in multiset(gs);
    assert gs[k] in multiset(es);
    var m :| 0 <= m < |es| && es[m] == gs[k];
    assert names[m] in Map(shown, GroupOf);
    var j :| 0 <= j < |shown| && Map(shown, GroupOf)[j] == gs[k].0;
  }

  lemma UsedIsListed(search: string, items: seq<NavItem>, i: nat)
    requires i < |Shown(search, items)|
    ensures exists k :: 0 <= k < |Groups(search, items)| && Groups(search, items)[k].0 == GroupOf(Shown(search, items)[i])
  {
    var shown := Shown(search, items);
    var es := Entries(shown);
    var gs := Groups(search, items);
    var names := GroupNames(shown);
    var g := GroupOf(shown[i]);
    assert Map(shown, GroupOf)[i] == g;
    assert g in names;
    var m :| 0 <= m < |names| && names[m] == g;
    assert es[m].0 == g;
    EntryInGroups(search, items, es[m]);
    var k :| 0 <= k < |gs| && gs[k] == es[m];
  }

  /** Sorting the entries loses none of them. */
  lemma EntryInGroups(search: string, items: seq<NavItem>, e: Entry)
    requires e in Entries(Shown(search, items))
    ensures e in Groups(search, items)
  {
    assert e in multiset(Entries(Shown(search, items)));
  }

  /** With a search text, every listed item's label contains it, ignoring case. */
  lemma SearchNarrows(search: string, items: seq<NavItem>, e: Entry, x: NavItem)
    requires search != "" && e in Groups(search, items) && x in e.1
    ensures x in items && ContainsIgnoringCase(x.title, search) && GroupOf(x) == e.0
  {
    var k :| 0 <= k < |Groups(search, items)| && Groups(search, items)[k] == e;
    GroupsHoldMembers(search, items, k);
  }

  /** The first-seen group names and the map of groups, for the items shown so far. */
  ghost predicate GroupingOf(names: seq<string>, groups: map<string, seq<NavItem>>, shown: seq<NavItem>)
  {
    names == GroupNames(shown) &&
    (forall g :: g in groups <==> g in names) &&
    (forall g :: g in groups ==> groups[g] == Members(shown, g))
  }

  lemma MembersSnoc(shown: seq<NavItem>, i: NavItem, g: string)
    ensures Members(shown + [i], g) == Members(shown, g) + (if GroupOf(i) == g then [i] else [])
  {
    FilterSnoc(shown, i, InGroup(g));
  }

  lemma NamesSnoc(shown: seq<NavItem>, i: NavItem)
    ensures GroupNames(shown + [i]) == if GroupOf(i) in GroupNames(shown) then GroupNames(shown) else GroupNames(shown) + [GroupOf(i)]
  {
    var m := Map(shown + [i], GroupOf);
    MapSnoc(shown, i, GroupOf);
    assert m[..|m| - 1] == Map(shown, GroupOf);
  }

  /** Pushing one more shown item onto its group keeps the grouping exact. */
  lemma PushStep(names: seq<string>, groups: map<string, seq<NavItem>>, shown: seq<NavItem>, i: NavItem)
    requires GroupingOf(names, groups, shown)
    ensures var g := GroupOf(i);
            GroupingOf(if g in groups then names else names + [g],
                       groups[g := (if g in groups then groups[g] else []) + [i]], shown + [i])
  {
    var g := GroupOf(i);
    NamesSnoc(shown, i);
    if g in groups {
      PushExisting(names, groups, shown, i);
    } else {
      PushNew(names, groups, shown, i);
    }
  }

  lemma PushExisting(names: seq<string>, groups: map<string, seq<NavItem>>, shown: seq<NavItem>, i: NavItem)
    requires GroupingOf(names, groups, shown) && GroupOf(i) in groups
    requires GroupNames(shown + [i]) == if GroupOf(i) in GroupNames(shown) then GroupNames(shown) else GroupNames(shown) + [GroupOf(i)]
    ensures GroupingOf(names, groups[GroupOf(i) := groups[GroupOf(i)] + [i]], shown + [i])
  {
    var g := GroupOf(i);
    var groups' := groups[g := groups[g] + [i]];
    assert g in names;
    forall h ensures h in groups' <==> h in names {
      assert h in groups' <==> h in groups;
    }
    forall h | h in groups' ensures groups'[h] == Members(shown + [i], h) {
      PushMember(groups, shown, i, groups[g], h);
    }
  }

  lemma PushNew(names: seq<string>, groups: map<string, seq<NavItem>>, shown: seq<NavItem>, i: NavItem)
    requires GroupingOf(names, groups, shown) && GroupOf(i) !in groups
    requires GroupNames(shown + [i]) == if GroupOf(i) in GroupNames(shown) then GroupNames(shown) else GroupNames(shown) + [GroupOf(i)]
    ensures GroupingOf(names + [GroupOf(i)], groups[GroupOf(i) := [i]], shown + [i])
  {
    var g := GroupOf(i);
    var groups' := groups[g := [i]];
    assert g !in names;
    assert [] + [i] == [i];
    NoneShownYet(shown, g);
    forall h ensures h in groups' <==> h in names + [g] {
      assert h in groups' <==> h in groups || h == g;
      assert h in names + [g] <==> h in names || h == g;
    }
    forall h | h in groups' ensures groups'[h] == Members(shown + [i], h) {
      PushMember(groups, shown, i, [], h);
    }
  }

  /** One group's list after the push: the pushed item's group gains it, the others are unchanged. */
  lemma PushMember(groups: map<string, seq<NavItem>>, shown: seq<NavItem>, i: NavItem, prior: seq<NavItem>, h: string)
    requires forall g :: g in groups ==> groups[g] == Members(shown, g)
    requires prior == Members(shown, GroupOf(i))
    requires h in groups || h == GroupOf(i)
    ensures groups[GroupOf(i) := prior + [i]][h] == Members(shown + [i], h)
  {
    MembersSnoc(shown, i, h);
  }

  lemma NoneShownYet(shown: seq<NavItem>, g: string)
    requires g !in GroupNames(shown)
    ensures Members(shown, g) == []
  {
    NoMembersEmpty(Members(shown, g));
  }

  function EntriesOfGrouping(names: seq<string>, groups: map<string, seq<NavItem>>): seq<Entry>
  {
    Map(names, (g: string) => (g, if g in groups then groups[g] else []))
  }

  lemma GroupingEntries(names: seq<string>, groups: map<string, seq<NavItem>>, shown: seq<NavItem>)
    requires GroupingOf(names, groups, shown)
    ensures EntriesOfGrouping(names, groups) == Entries(shown)
  {
  }

  lemma ShownSnoc(search: string, items: seq<NavItem>, n: nat)
    requires n < |items|
    ensures Shown(search, items[..n + 1]) == Shown(search, items[..n]) + (if Visible(search, items[n]) then [items[n]] else [])
  {
    assert items[..n + 1] == items[..n] + [items[n]];
    FilterSnoc(items[..n], items[n], VisibleTest(search));
  }

  /**
   * The `useMemo` body: each visible item is pushed onto its group's list,
   * created on first use; the entries are then sorted.
   */
  method BuildGroups(search: string, items: seq<NavItem>) returns (sorted: seq<Entry>)
    ensures sorted == Groups(search, items)
  {
    var names, groups := PushVisible(search, items);
    GroupingEntries(names, groups, Shown(search, items));
    sorted := SortBy(EntriesOfGrouping(names, groups), EntryText);
  }

  /** The loop of the `useMemo` body: the group names in order of first use, and each group's visible items. */
  method PushVisible(search: string, items: seq<NavItem>) returns (names: seq<string>, groups: map<string, seq<NavItem>>)
    ensures GroupingOf(names, groups, Shown(search, items))
  {
    names := [];
    groups := map[];
    ghost var shown: seq<NavItem> := [];
    var n := 0;
    while n < |items|
      invariant 0 <= n <= |items|
      invariant shown == Shown(search, items[..n])
      invariant GroupingOf(names, groups, shown)
    {
      var i := items[n];
      ShownSnoc(search, items, n);
      if Visible(search, i) {
        PushStep(names, groups, shown, i);
        var g := GroupOf(i);
        var list := if g in groups then groups[g] else [];
        if g !in groups {
          names := names + [g];
        }
        groups := groups[g := list + [i]];
        shown := shown + [i];
      }
      n := n + 1;
    }
    assert items[..n] == items;
  }

  /** `openGroups[name] ?? true`: a group never toggled is open. */
  function IsOpen(open: map<string, bool>, name: string): (r: bool)
    ensures !r <==> name in open && !open[name]
  {
    if name in open then open[name] else true
  }

  /** `toggleGroup` as written: the flag becomes `!open[name]`, and a missing flag reads as false there. */
  function ToggleGroup(open: map<string, bool>, name: string): (r: map<string, bool>)
    ensures name in r && r[name] == !(name in open && open[name])
    ensures forall k :: k != name ==> (k in r <==> k in open) && (k in open ==> r[k] == open[k])
  {
    open[name := !(name in open && open[name])]
  }

  /** Once a group has a flag, toggling flips whether it is open. */
  lemma ToggleFlipsOnceSet(open: map<string, bool>, name: string)
    requires name in open
    ensures IsOpen(ToggleGroup(open, name), name) == !IsOpen(open, name)
  {
  }

  /** The first click on a group leaves it open: the flag goes from missing (open) to true (open). */
  lemma FirstClickKeepsGroupOpen(open: map<string, bool>, name: string)
    requires name !in open
    ensures IsOpen(open, name) && IsOpen(ToggleGroup(open, name), name)
  {
  }

  /** Toggling as evidently intended: the flag becomes the opposite of what is shown. */
  function ToggleShown(open: map<string, bool>, name: string): (r: map<string, bool>)
    ensures forall k :: k != name ==> IsOpen(r, k) == IsOpen(open, k)
  {
    open[name := !IsOpen(open, name)]
  }

  /** Every click, the first included, flips the group, and two clicks restore it. */
  lemma ToggleShownFlips(open: map<string, bool>, name: string)
    ensures IsOpen(ToggleShown(open, name), name) == !IsOpen(open, name)
    ensures IsOpen(ToggleShown(ToggleShown(open, name), name), name) == IsOpen(open, name)
  {
  }

  class SidebarState {
    var search: string
    var openGroups: map<string, bool>

    constructor()
      ensures search == "" && openGroups == map[]
    {
      search := "";
      openGroups := map[];
    }

    method SetSearch(text: string)
      modifies this
      ensures search == text && openGroups == old(openGroups)
    {
      search := text;
    }

    /** Whether a group's items are shown. */
    predicate GroupShown(name: string)
      reads this
    {
      IsOpen(openGroups, name)
    }

    /** The click on a group's header, as written. */
    method Toggle(name: string)
      modifies this
      ensures openGroups == ToggleGroup(old(openGroups), name) && search == old(search)
    {
      openGroups := ToggleGroup(openGroups, name);
    }
  }
}
