/**
 * The stock entry screen: a draft movement (stock in or out) whose item
 * lines are added by scanning a code, edited inline and removed, with a
 * summary of the line count and the total quantity.
 *
 * The clock read by `Date.now()` for a new line's id is a parameter.
 */
module StockEntry {
  import opened Wrappers
  import opened Seqs
  import opened Text

  datatype EntryType = In | Out

  datatype EntryItem = EntryItem(id: string, code: string, name: string, quantity: real,
                                 batch: Option<string>, serial: Option<string>)

  datatype Draft = Draft(id: string, kind: EntryType, reason: Option<string>,
                         remarks: Option<string>, items: seq<EntryItem>)

  /** The fields an inline edit may set; an absent one is left as it was. */
  datatype ItemPatch = ItemPatch(quantity: Option<real>, batch: Option<string>, serial: Option<string>)

  /** The blank draft: id `new`, stock in, no lines. */
  const Empty: Draft := Draft("new", In, None, None, [])

  /** A scanned line: named "Scanned Item", quantity 1, id from the clock. */
  function ScannedItem(code: string, now: nat): (item: EntryItem)
    ensures item.code == code && item.quantity == 1.0
    ensures item.id == NatToString(now) && item.batch.None? && item.serial.None?
  {
    EntryItem(NatToString(now), code, "Scanned Item", 1.0, None, None)
  }

  function ApplyPatch(item: EntryItem, patch: ItemPatch): (r: EntryItem)
    ensures r.id == item.id && r.code == item.code && r.name == item.name
    ensures r.quantity == patch.quantity.GetOr(item.quantity)
    ensures r.batch == (if patch.batch.Some? then patch.batch else item.batch)
    ensures r.serial == (if patch.serial.Some? then patch.serial else item.serial)
  {
    item.(quantity := patch.quantity.GetOr(item.quantity),
          batch := if patch.batch.Some? then patch.batch else item.batch,
          serial := if patch.serial.Some? then patch.serial else item.serial)
  }

  /** `updateItem`: every line with this id is patched, every other line kept, the order unchanged. */
  function UpdatedItems(items: seq<EntryItem>, id: string, patch: ItemPatch): (r: seq<EntryItem>)
    ensures |r| == |items|
    ensures forall i :: 0 <= i < |items| ==> r[i].id == items[i].id
    ensures forall i :: 0 <= i < |items| && items[i].id != id ==> r[i] == items[i]
    ensures forall i :: 0 <= i < |items| && items[i].id == id ==> r[i] == ApplyPatch(items[i], patch)
  {
    Map(items, (item: EntryItem) => if item.id == id then ApplyPatch(item, patch) else item)
  }

  /** `removeItem`: every line with this id goes, every other line stays. */
  function RemovedItems(items: seq<EntryItem>, id: string): (r: seq<EntryItem>)
    ensures forall item :: item in r <==> item in items && item.id != id
    ensures |r| <= |items|
  {
    Filter(items, (item: EntryItem) => item.id != id)
  }

  /** The summary's "Total Qty". */
  function TotalQuantity(items: seq<EntryItem>): (r: real)
    ensures items == [] ==> r == 0.0
    ensures |items| == 1 ==> r == items[0].quantity
    ensures (forall i :: 0 <= i < |items| ==> items[i].quantity >= 0.0) ==> r >= 0.0
  {
    var q := (item: EntryItem) => item.quantity;
    assert |items| == 1 ==> Sum(items, q) == Sum(items[..0], q) + q(items[0]) && items[..0] == [];
    if forall i :: 0 <= i < |items| ==> items[i].quantity >= 0.0 then
      SumNonNegative(items, q);
      Sum(items, q)
    else Sum(items, q)
  }

  /** Each scanned line adds exactly one to the total quantity. */
  lemma ScanAddsOne(items: seq<EntryItem>, code: string, now: nat)
    ensures TotalQuantity(items + [ScannedItem(code, now)]) == TotalQuantity(items) + 1.0
  {
    SumAppend(items, [ScannedItem(code, now)], (item: EntryItem) => item.quantity);
  }

  /** Two sequences whose lines carry the same quantities, one by one, have the same total. */
  lemma {:induction false} SameQuantitiesSameTotal(a: seq<EntryItem>, b: seq<EntryItem>)
    requires |a| == |b| && forall i :: 0 <= i < |a| ==> a[i].quantity == b[i].quantity
    ensures TotalQuantity(a) == TotalQuantity(b)
  {
    if a != [] {
      SameQuantitiesSameTotal(a[..|a| - 1], b[..|b| - 1]);
    }
  }

  /** Editing a batch or a serial number leaves the total quantity as it was. */
  lemma EditWithoutQuantityKeepsTotal(items: seq<EntryItem>, id: string, patch: ItemPatch)
    requires patch.quantity.None?
    ensures TotalQuantity(UpdatedItems(items, id, patch)) == TotalQuantity(items)
  {
    SameQuantitiesSameTotal(UpdatedItems(items, id, patch), items);
  }

  /** Removing an id no line carries leaves the lines as they were. */
  lemma RemoveMissingIdKeepsLines(items: seq<EntryItem>, id: string)
    requires forall i :: 0 <= i < |items| ==> items[i].id != id
    ensures RemovedItems(items, id) == items
  {
    FilterKeepsAll(items, (item: EntryItem) => item.id != id);
  }

  /**
   * Line ids come from the clock, so two codes scanned in the same
   * millisecond share an id, and removing one of them removes both.
   */
  lemma SameMillisecondLinesRemovedTogether(items: seq<EntryItem>, a: string, b: string, now: nat)
    ensures var both := items + [ScannedItem(a, now), ScannedItem(b, now)];
            ScannedItem(a, now) !in RemovedItems(both, NatToString(now)) &&
            ScannedItem(b, now) !in RemovedItems(both, NatToString(now))
  {
  }

  class Screen {
    var draft: Draft
    /** The scan box's text. */
    var scan: string

    constructor()
      ensures draft == Empty && scan == ""
    {
      draft := Empty;
      scan := "";
    }

    /** `addItem`: one scanned line appended; nothing else changes. */
    method AddItem(code: string, now: nat)
      modifies this
      ensures draft == old(draft).(items := old(draft).items + [ScannedItem(code, now)])
      ensures scan == old(scan)
    {
      draft := draft.(items := draft.items + [ScannedItem(code, now)]);
    }

    method UpdateItem(id: string, patch: ItemPatch)
      modifies this
      ensures draft == old(draft).(items := UpdatedItems(old(draft).items, id, patch))
      ensures scan == old(scan)
    {
      draft := draft.(items := UpdatedItems(draft.items, id, patch));
    }

    method RemoveItem(id: string)
      modifies this
      ensures draft == old(draft).(items := RemovedItems(old(draft).items, id))
      ensures scan == old(scan)
    {
      draft := draft.(items := RemovedItems(draft.items, id));
    }

    method SetScan(text: string)
      modifies this
      ensures scan == text && draft == old(draft)
    {
      scan := text;
    }

    method SetType(kind: EntryType)
      modifies this
      ensures draft == old(draft).(kind := kind) && scan == old(scan)
    {
      draft := draft.(kind := kind);
    }

    method SetReason(reason: string)
      modifies this
      ensures draft == old(draft).(reason := Some(reason)) && scan == old(scan)
    {
      draft := draft.(reason := Some(reason));
    }

    method SetRemarks(remarks: string)
      modifies this
      ensures draft == old(draft).(remarks := Some(remarks)) && scan == old(scan)
    {
      draft := draft.(remarks := Some(remarks));
    }

    /** Enter in the scan box adds the box's text as a line, even an empty one, and clears the box. */
    method PressEnter(now: nat)
      modifies this
      ensures draft.items == old(draft).items + [ScannedItem(old(scan), now)]
      ensures draft == old(draft).(items := draft.items)
      ensures scan == ""
    {
      AddItem(scan, now);
      scan := "";
    }

    /** The Add button does the same, but is disabled while the box is empty. */
    method ClickAdd(now: nat)
      modifies this
      ensures old(scan) == "" ==> draft == old(draft) && scan == old(scan)
      ensures old(scan) != "" ==> draft == old(draft).(items := old(draft).items + [ScannedItem(old(scan), now)]) && scan == ""
    {
      if scan == "" {
        return;
      }
      AddItem(scan, now);
      scan := "";
    }

    /** Submit and Reset both put the blank draft back; the scan box is kept. */
    method Save()
      modifies this
      ensures draft == Empty && scan == old(scan)
    {
      draft := Empty;
    }

    method Reset()
      modifies this
      ensures draft == Empty && scan == old(scan)
    {
      draft := Empty;
    }

    /** The summary: the number of lines and their total quantity. */
    function Summary(): (r: (nat, real))
      reads this
      ensures r.0 == |draft.items|
      ensures draft == Empty ==> r == (0, 0.0)
    {
      (|draft.items|, TotalQuantity(draft.items))
    }
  }
}
