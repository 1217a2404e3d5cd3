/**
 * The editable child table of a form (the lines of an order or an invoice):
 * adding, deleting, patching and drag-reordering rows, the per-cell value
 * shown, and the footer totals of numeric columns.
 *
 * Rows are untyped records. Every edit is handed to `onChange`; the model
 * returns the rows passed to it, or `None` where `onChange` is not called.
 */
module ChildTable {
  import opened Wrappers
  import opened Seqs
  import opened JsValues

  type Row = Record

  /** A column: its key, whether it is numeric, and an optional computed value. */
  datatype Column = Column(key: string, isNumber: bool, computed: Option<(Row, seq<Row>) -> JsValue>)

  /** `maxRows && value.length >= maxRows`: an absent or zero maximum never blocks. */
  predicate AtMaximum(count: nat, maxRows: Option<int>)
  {
    maxRows.Some? && maxRows.value != 0 && count >= maxRows.value
  }

  /** `handleAdd`: one new row at the end, unless the table is at its maximum. */
  function Add(value: seq<Row>, maxRows: Option<int>, newRow: Row): (r: Option<seq<Row>>)
    ensures r.None? <==> AtMaximum(|value|, maxRows)
    ensures r.Some? ==> |r.value| == |value| + 1 && r.value[..|value|] == value && r.value[|value|] == newRow
  {
    if AtMaximum(|value|, maxRows) then None else Some(value + [newRow])
  }

  /** `handleDelete(idx)`: the row at `idx` removed, unless deletion is off or the table is at its minimum. */
  function Delete(value: seq<Row>, idx: nat, allowDelete: bool, minRows: int): (r: Option<seq<Row>>)
    requires idx < |value|
    ensures r.None? <==> !allowDelete || |value| <= minRows
    ensures r.Some? ==> |r.value| == |value| - 1
    ensures r.Some? ==> forall i :: 0 <= i < |r.value| ==> r.value[i] == if i < idx then value[i] else value[i + 1]
  {
    if !allowDelete || |value| <= minRows then None
    else Some(value[..idx] + value[idx + 1..])
  }

  /** `patchRow(idx, patch)`: the patch's keys overwrite those of row `idx`; every other row is kept. */
  function Patch(value: seq<Row>, idx: int, patch: Row): (r: seq<Row>)
    ensures |r| == |value|
    ensures forall i :: 0 <= i < |value| && i != idx ==> r[i] == value[i]
    ensures 0 <= idx < |value| ==> forall k :: Get(r[idx], k) == if k in patch then patch[k] else Get(value[idx], k)
  {
    seq(|value|, i requires 0 <= i < |value| => if i == idx then value[i] + patch else value[i])
  }

  /** The two `splice` calls of a drop: take the row at `from` out, insert it at `to`. */
  function Move<T>(s: seq<T>, from: nat, to: nat): (r: seq<T>)
    requires from < |s| && to < |s|
    ensures |r| == |s| && r[to] == s[from]
  {
    var rest := s[..from] + s[from + 1..];
    rest[..to] + [s[from]] + rest[to..]
  }

  /** A drop reorders the rows and loses or duplicates none. */
  lemma MovePermutes<T>(s: seq<T>, from: nat, to: nat)
    requires from < |s| && to < |s|
    ensures multiset(Move(s, from, to)) == multiset(s)
  {
    var rest := s[..from] + s[from + 1..];
    var x := s[from];
    assert s == s[..from] + [x] + s[from + 1..];
    assert multiset(s) == multiset(rest) + multiset{x};
    assert rest == rest[..to] + rest[to..];
    assert Move(s, from, to) == rest[..to] + [x] + rest[to..];
    assert multiset(Move(s, from, to)) == multiset(rest[..to]) + multiset{x} + multiset(rest[to..]);
  }

  /** Rows other than the moved one keep their relative order. */
  lemma MoveKeepsOthersInOrder<T>(s: seq<T>, from: nat, to: nat)
    requires from < |s| && to < |s|
    ensures var m := Move(s, from, to);
            m[..to] + m[to + 1..] == s[..from] + s[from + 1..]
  {
    var rest := s[..from] + s[from + 1..];
    var m := Move(s, from, to);
    assert m[..to] == rest[..to];
    assert m[to + 1..] == rest[to..];
  }

  /** Moving a row onto its own place changes nothing. */
  lemma MoveInPlace<T>(s: seq<T>, i: nat)
    requires i < |s|
    ensures Move(s, i, i) == s
  {
    var rest := s[..i] + s[i + 1..];
    assert rest[..i] == s[..i] && rest[i..] == s[i + 1..];
  }

  /** The drag state: the index of the row being dragged, if any. */
  class DragState {
    var dragIndex: Option<nat>

    constructor()
      ensures dragIndex == None
    {
      dragIndex := None;
    }

    method DragStart(idx: nat)
      modifies this
      ensures dragIndex == Some(idx)
    {
      dragIndex := Some(idx);
    }

    /** `onDragEnd`. */
    method DragEnd()
      modifies this
      ensures dragIndex == None
    {
      dragIndex := None;
    }

    /**
     * `onDrop` on row `idx`: with no drag, or a drop onto the dragged row,
     * nothing happens (the drag is not even reset); otherwise the dragged row
     * is moved to `idx` and the drag is reset.
     */
    method Drop(value: seq<Row>, idx: nat) returns (changed: Option<seq<Row>>)
      requires idx < |value|
      requires dragIndex.Some? ==> dragIndex.value < |value|
      modifies this
      ensures old(dragIndex).None? || old(dragIndex) == Some(idx) ==> changed.None? && dragIndex == old(dragIndex)
      ensures old(dragIndex).Some? && old(dragIndex) != Some(idx) ==>
                changed == Some(Move(value, old(dragIndex).value, idx)) && dragIndex.None?
    {
      if dragIndex.None? || dragIndex == Some(idx) {
        return None;
      }
      changed := Some(Move(value, dragIndex.value, idx));
      dragIndex := None;
    }
  }

  /** The value a cell shows: the computed one unless it is `undefined`, else the raw field. */
  function CellValue(col: Column, row: Row, all: seq<Row>): (v: JsValue)
    ensures col.computed.None? ==> v == Get(row, col.key)
    ensures col.computed.Some? && col.computed.value(row, all) != Undefined ==> v == col.computed.value(row, all)
    ensures col.computed.Some? && col.computed.value(row, all) == Undefined ==> v == Get(row, col.key)
    ensures v == Undefined ==> Get(row, col.key) == Undefined
  {
    var computed := if col.computed.Some? then col.computed.value(row, all) else Undefined;
    if computed != Undefined then computed else Get(row, col.key)
  }

  /** A numeric column's footer: the sum of `Number(cell) || 0` over all rows. */
  function ColumnTotal(rows: seq<Row>, key: string, parse: string -> Option<real>): real
  {
    Sum(rows, (r: Row) => NumberOrZero(Get(r, key), parse))
  }

  /** Some numeric column of `columns` has this key. */
  predicate NumericKey(columns: seq<Column>, key: string)
  {
    exists i :: 0 <= i < |columns| && columns[i].isNumber && columns[i].key == key
  }

  /**
   * The `totals` record: when footer totals are on, one entry per numeric
   * column key holding that column's total; otherwise none.
   */
  method Totals(rows: seq<Row>, columns: seq<Column>, footerTotals: bool, parse: string -> Option<real>)
    returns (totals: map<string, real>)
    ensures forall k :: k in totals <==> footerTotals && NumericKey(columns, k)
    ensures forall k :: k in totals ==> totals[k] == ColumnTotal(rows, k, parse)
  {
    totals := map[];
    if footerTotals {
      var i := 0;
      while i < |columns|
        invariant 0 <= i <= |columns|
        invariant forall k :: k in totals <==> NumericKey(columns[..i], k)
        invariant forall k :: k in totals ==> totals[k] == ColumnTotal(rows, k, parse)
      {
        var c := columns[i];
        if c.isNumber {
          totals := totals[c.key := ColumnTotal(rows, c.key, parse)];
        }
        assert forall k :: NumericKey(columns[..i + 1], k) <==> NumericKey(columns[..i], k) || (c.isNumber && c.key == k) by {
          forall k ensures NumericKey(columns[..i + 1], k) <==> NumericKey(columns[..i], k) || (c.isNumber && c.key == k) {
            if NumericKey(columns[..i + 1], k) {
              var j :| 0 <= j < i + 1 && columns[..i + 1][j].isNumber && columns[..i + 1][j].key == k;
              if j < i {
                assert columns[..i][j] == columns[j];
              }
            }
            if NumericKey(columns[..i], k) {
              var j :| 0 <= j < i && columns[..i][j].isNumber && columns[..i][j].key == k;
              assert columns[..i + 1][j] == columns[j];
            }
            if c.isNumber && c.key == k {
              assert columns[..i + 1][i] == c;
            }
          }
        }
        i := i + 1;
      }
      assert columns[..i] == columns;
    }
  }

  /** A new row adds its own cell to the footer total. */
  lemma AddedRowTotal(rows: seq<Row>, newRow: Row, key: string, parse: string -> Option<real>)
    ensures ColumnTotal(rows + [newRow], key, parse) == ColumnTotal(rows, key, parse) + NumberOrZero(Get(newRow, key), parse)
  {
    SumAppend(rows, [newRow], (r: Row) => NumberOrZero(Get(r, key), parse));
  }

  /** Reordering rows by drag and drop leaves every footer total as it was. */
  lemma MoveKeepsTotals(rows: seq<Row>, from: nat, to: nat, key: string, parse: string -> Option<real>)
    requires from < |rows| && to < |rows|
    ensures ColumnTotal(Move(rows, from, to), key, parse) == ColumnTotal(rows, key, parse)
  {
    var f := (r: Row) => NumberOrZero(Get(r, key), parse);
    var rest := rows[..from] + rows[from + 1..];
    var x := rows[from];
    assert Move(rows, from, to) == rest[..to] + ([x] + rest[to..]);
    SumAppend(rest[..to], [x] + rest[to..], f);
    SumAppend([x], rest[to..], f);
    assert rest == rest[..to] + rest[to..];
    SumAppend(rest[..to], rest[to..], f);
    assert rows == rows[..from] + ([x] + rows[from + 1..]);
    SumAppend(rows[..from], [x] + rows[from + 1..], f);
    SumAppend([x], rows[from + 1..], f);
    SumAppend(rows[..from], rows[from + 1..], f);
  }
}
