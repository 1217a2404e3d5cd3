/**
 * The drag-and-drop reorderable list: the displayed order of item ids, the
 * id being dragged, the live reordering while dragging over another item,
 * and the report of the final order on drop.
 */
module DragDrop {
  import opened Wrappers
  import opened Seqs

  /** `indexOf`: the first position of `x`, or -1. */
  function IndexOf(s: seq<string>, x: string): (k: int)
    ensures -1 <= k < |s|
    ensures k == -1 <==> x !in s
    ensures k >= 0 ==> s[k] == x && forall i :: 0 <= i < k ==> s[i] != x
  {
    if s == [] then -1
    else if s[0] == x then 0
    else var k := IndexOf(s[1..], x); if k == -1 then -1 else k + 1
  }

  /** `splice(idx, 0, x)`: a negative start counts from the end. */
  function InsertAt(s: seq<string>, idx: int, x: string): (r: seq<string>)
    ensures |r| == |s| + 1
  {
    var p := if idx < 0 then (if |s| + idx < 0 then 0 else |s| + idx) else (if idx > |s| then |s| else idx);
    s[..p] + [x] + s[p..]
  }

  /** A drag id that is `null` or the empty string does nothing. */
  predicate Active(dragging: Option<string>)
  {
    dragging.Some? && dragging.value != ""
  }

  /** The order after dragging `dragId` over `overId`: removed, then put just before `overId`. */
  function DragOverOrder(order: seq<string>, dragId: string, overId: string): seq<string>
  {
    var next := Filter(order, Others(dragId));
    InsertAt(next, IndexOf(next, overId), dragId)
  }

  /** The ids other than the dragged one. */
  function Others(dragId: string): string -> bool
  {
    (x: string) => x != dragId
  }

  /** With `overId` listed, the dragged id goes in at the position of `overId` among the others. */
  lemma DragOverSplit(order: seq<string>, dragId: string, overId: string)
    requires overId in order && dragId != overId
    ensures var next := Filter(order, Others(dragId));
            var idx := IndexOf(next, overId);
            0 <= idx < |next| && DragOverOrder(order, dragId, overId) == next[..idx] + [dragId] + next[idx..]
  {
    var next := Filter(order, Others(dragId));
    assert overId in next;
  }

  lemma {:induction false} FilterOutCount(s: seq<string>, d: string, p: string -> bool)
    requires forall x :: p(x) <==> x != d
    ensures multiset(Filter(s, p)) == multiset(s)[d := 0]
  {
    if s != [] {
      var init := s[..|s| - 1];
      FilterOutCount(init, d, p);
      assert s == init + [s[|s| - 1]];
    }
  }

  lemma {:induction false} DistinctOnce(s: seq<string>, d: string)
    requires Distinct(s) && d in s
    ensures multiset(s)[d] == 1
  {
    var init := s[..|s| - 1];
    var last := s[|s| - 1];
    assert s == init + [last];
    if last == d {
      assert d !in init;
    } else {
      DistinctOnce(init, d);
    }
  }

  /** Dragging over another listed item only reorders: no id is lost or duplicated. */
  lemma DragOverPermutes(order: seq<string>, dragId: string, overId: string)
    requires Distinct(order) && dragId in order && overId in order && dragId != overId
    ensures multiset(DragOverOrder(order, dragId, overId)) == multiset(order)
  {
    var p := Others(dragId);
    var next := Filter(order, p);
    FilterOutCount(order, dragId, p);
    DistinctOnce(order, dragId);
    DragOverSplit(order, dragId, overId);
    InsertedOnce(next, IndexOf(next, overId), dragId);
  }

  /** Inserting one element adds exactly that element to the multiset. */
  lemma InsertedOnce(next: seq<string>, idx: int, x: string)
    requires 0 <= idx <= |next|
    ensures multiset(next[..idx] + [x] + next[idx..]) == multiset(next) + multiset{x}
  {
    assert next == next[..idx] + next[idx..];
  }

  /** The dragged id lands immediately before `overId`. */
  lemma DragOverPlacesBefore(order: seq<string>, dragId: string, overId: string)
    requires overId in order && dragId != overId
    ensures var r := DragOverOrder(order, dragId, overId);
            exists k :: 0 <= k < |r| - 1 && r[k] == dragId && r[k + 1] == overId
  {
    var next := Filter(order, Others(dragId));
    DragOverSplit(order, dragId, overId);
    var idx := IndexOf(next, overId);
    var r := DragOverOrder(order, dragId, overId);
    assert r[idx] == dragId && r[idx + 1] == overId;
  }

  /** Removing the dragged id from the others with it put back anywhere gives the others back. */
  lemma FilterDropsAt(next: seq<string>, idx: int, x: string)
    requires 0 <= idx <= |next| && x !in next
    ensures Filter(next[..idx] + [x] + next[idx..], Others(x)) == next
  {
    var a, b := next[..idx], next[idx..];
    assert x !in a && x !in b;
    FilterSkipsRejected(a, x, b, Others(x));
    NoneDropped(a, x);
    NoneDropped(b, x);
  }

  /** A rejected element in the middle leaves the filtered halves side by side. */
  lemma FilterSkipsRejected(a: seq<string>, x: string, b: seq<string>, p: string -> bool)
    requires !p(x)
    ensures Filter(a + [x] + b, p) == Filter(a, p) + Filter(b, p)
  {
    FilterSnoc(a, x, p);
    assert Filter(a + [x], p) == Filter(a, p);
    FilterAppend(a + [x], b, p);
  }

  /** Without the dragged id, filtering it out changes nothing. */
  lemma NoneDropped(s: seq<string>, x: string)
    requires x !in s
    ensures Filter(s, Others(x)) == s
  {
    forall y | y in s ensures Others(x)(y) { }
    FilterKeepsAll(s, Others(x));
  }

  /** The ids other than the dragged one keep their relative order. */
  lemma DragOverKeepsOthersInOrder(order: seq<string>, dragId: string, overId: string)
    requires overId in order && dragId != overId
    ensures Filter(DragOverOrder(order, dragId, overId), Others(dragId)) == Filter(order, Others(dragId))
  {
    var next := Filter(order, Others(dragId));
    DragOverSplit(order, dragId, overId);
    assert dragId !in next;
    FilterDropsAt(next, IndexOf(next, overId), dragId);
  }

  /** Since it always lands before the item dragged over, a dragged item can never become the last one. */
  lemma DraggedNeverLast(order: seq<string>, dragId: string, overId: string)
    requires overId in order && dragId != overId
    ensures var r := DragOverOrder(order, dragId, overId);
            |r| >= 2 && r[|r| - 1] != dragId
  {
    var next := Filter(order, Others(dragId));
    DragOverSplit(order, dragId, overId);
    var r := DragOverOrder(order, dragId, overId);
    var idx := IndexOf(next, overId);
    assert r[|r| - 1] == next[|next| - 1];
    assert next[|next| - 1] in next;
  }

  class Manager {
    var order: seq<string>
    var dragging: Option<string>

    /** The initial order: the item ids as given. */
    constructor(itemIds: seq<string>)
      ensures order == itemIds && dragging == None
    {
      order := itemIds;
      dragging := None;
    }

    method DragStart(id: string)
      modifies this
      ensures dragging == Some(id) && order == old(order)
    {
      dragging := Some(id);
    }

    /** Without an active drag, or over the dragged item itself, nothing changes. */
    method DragOver(overId: string)
      modifies this
      ensures dragging == old(dragging)
      ensures !Active(old(dragging)) || old(dragging) == Some(overId) ==> order == old(order)
      ensures Active(old(dragging)) && old(dragging) != Some(overId) ==>
                order == DragOverOrder(old(order), old(dragging).value, overId)
    {
      if !Active(dragging) || dragging == Some(overId) {
        return;
      }
      order := DragOverOrder(order, dragging.value, overId);
    }

    /** The current order is reported only after an active drag; the drag is reset either way. */
    method Drop() returns (reported: Option<seq<string>>)
      modifies this
      ensures reported == if Active(old(dragging)) then Some(old(order)) else None
      ensures dragging == None && order == old(order)
    {
      reported := if Active(dragging) then Some(order) else None;
      dragging := None;
    }
  }
}
