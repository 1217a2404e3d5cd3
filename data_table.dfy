/**
 * The generic data table: its rows with a selection flag, the free-text
 * row filter, row and all-rows selection, the selection report and the CSV
 * export's cell escaping.
 *
 * `JSON.stringify` of a record is a parameter (`json`), as is the row id
 * function.
 */
module DataTable {
  import opened Seqs
  import opened Text

  datatype Row<T> = Row(id: string, original: T, selected: bool)

  /** The rows built from new data: one unselected row per datum, in order. */
  function InitRows<T>(data: seq<T>, rowId: T -> string): (r: seq<Row<T>>)
    ensures |r| == |data|
    ensures forall i :: 0 <= i < |data| ==> r[i] == Row(rowId(data[i]), data[i], false)
  {
    Map(data, (d: T) => Row(rowId(d), d, false))
  }

  /** The search condition: the lower-cased JSON of the record contains the lower-cased search. */
  predicate RowMatches<T>(r: Row<T>, search: string, json: T -> string)
  {
    Contains(Lower(json(r.original)), Lower(search))
  }

  /** `filteredRows`: all rows for an empty search, else the matching rows in order. */
  function FilteredRows<T>(rows: seq<Row<T>>, search: string, json: T -> string): (r: seq<Row<T>>)
    ensures search == "" ==> r == rows
    ensures forall x :: x in r ==> x in rows && (search == "" || RowMatches(x, search, json))
    ensures forall x :: x in rows && (search == "" || RowMatches(x, search, json)) ==> x in r
  {
    if search == "" then rows else Filter(rows, (x: Row<T>) => RowMatches(x, search, json))
  }

  /** Flip the flag of the rows with that id. */
  function ToggleRowIn<T>(rows: seq<Row<T>>, id: string): (r: seq<Row<T>>)
    ensures |r| == |rows|
    ensures forall i :: 0 <= i < |rows| ==> r[i].id == rows[i].id && r[i].original == rows[i].original
  {
    Map(rows, (x: Row<T>) => if x.id == id then x.(selected := !x.selected) else x)
  }

  /** Toggling a row flips exactly the rows with that id. */
  lemma ToggleRowFlipsOnlyThatId<T>(rows: seq<Row<T>>, id: string, i: int)
    requires 0 <= i < |rows|
    ensures ToggleRowIn(rows, id)[i].selected == (if rows[i].id == id then !rows[i].selected else rows[i].selected)
  {
  }

  /** Toggling the same row twice restores the table. */
  lemma ToggleRowTwice<T>(rows: seq<Row<T>>, id: string)
    ensures ToggleRowIn(ToggleRowIn(rows, id), id) == rows
  {
    var once := ToggleRowIn(rows, id);
    var twice := ToggleRowIn(once, id);
    forall i | 0 <= i < |rows| ensures twice[i] == rows[i] {
      ToggleRowFlipsOnlyThatId(rows, id, i);
      ToggleRowFlipsOnlyThatId(once, id, i);
    }
  }

  function SetAll<T>(rows: seq<Row<T>>, selected: bool): (r: seq<Row<T>>)
    ensures |r| == |rows|
    ensures forall i :: 0 <= i < |rows| ==> r[i] == rows[i].(selected := selected)
  {
    Map(rows, (x: Row<T>) => x.(selected := selected))
  }

  function Original<T>(x: Row<T>): T { x.original }

  predicate IsSelected<T>(x: Row<T>) { x.selected }

  /** What `onSelectionChange` receives: the originals of the selected rows, in row order. */
  function SelectedOriginals<T>(rows: seq<Row<T>>): (r: seq<T>)
    ensures |r| <= |rows|
    ensures forall i :: 0 <= i < |r| ==> exists j :: 0 <= j < |rows| && rows[j].selected && rows[j].original == r[i]
    ensures forall j :: 0 <= j < |rows| && rows[j].selected ==> rows[j].original in r
  {
    var selected := Filter(rows, IsSelected);
    var originals := Map(selected, Original);
    SelectedSources(rows, selected, originals);
    assert forall i :: 0 <= i < |originals| ==> exists j :: 0 <= j < |rows| && rows[j].selected && rows[j].original == originals[i];
    originals
  }

  lemma SelectedSources<T>(rows: seq<Row<T>>, f: seq<Row<T>>, r: seq<T>)
    requires f == Filter(rows, IsSelected) && r == Map(f, Original)
    ensures forall i :: 0 <= i < |r| ==> exists j :: 0 <= j < |rows| && rows[j].selected && rows[j].original == r[i]
    ensures forall j :: 0 <= j < |rows| && rows[j].selected ==> rows[j].original in r
  {
    forall i | 0 <= i < |r| ensures exists j :: 0 <= j < |rows| && rows[j].selected && rows[j].original == r[i] {
      assert f[i] in f;
      var j :| 0 <= j < |rows| && rows[j] == f[i];
      assert IsSelected(f[i]);
      assert r[i] == f[i].original;
      assert 0 <= j < |rows| && rows[j].selected && rows[j].original == r[i];
    }
    forall j | 0 <= j < |rows| && rows[j].selected ensures rows[j].original in r {
      assert IsSelected(rows[j]);
      assert rows[j] in rows;
      assert rows[j] in f;
      var k :| 0 <= k < |f| && f[k] == rows[j];
      assert r[k] == rows[j].original;
    }
  }

  /** One more row adds its original at the end exactly when it is selected, so the order is row order. */
  lemma SelectedOriginalsSnoc<T>(rows: seq<Row<T>>, row: Row<T>)
    ensures SelectedOriginals<T>([]) == []
    ensures SelectedOriginals(rows + [row]) == SelectedOriginals(rows) + if row.selected then [row.original] else []
  {
    FilterSnoc(rows, row, IsSelected);
    MapAppend(Filter(rows, IsSelected), if row.selected then [row] else [], Original);
  }

  /** Selecting every row reports every original; clearing every row reports none. */
  lemma SelectAllReportsAll<T>(rows: seq<Row<T>>)
    ensures SelectedOriginals(SetAll(rows, true)) == Map(rows, Original)
    ensures SelectedOriginals(SetAll(rows, false)) == []
  {
    var on := SetAll(rows, true);
    FilterKeepsAll(on, IsSelected);
    NoneSelected(SetAll(rows, false));
  }

  lemma {:induction false} NoneSelected<T>(rows: seq<Row<T>>)
    requires forall i :: 0 <= i < |rows| ==> !rows[i].selected
    ensures Filter(rows, IsSelected) == []
  {
    if rows != [] {
      NoneSelected(rows[..|rows| - 1]);
    }
  }

  class Table<T> {
    var rows: seq<Row<T>>
    var allSelected: bool
    var search: string

    constructor()
      ensures rows == [] && !allSelected && search == ""
    {
      rows := [];
      allSelected := false;
      search := "";
    }

    /** The effect on new `data`: rows rebuilt, every selection dropped. */
    method SetData(data: seq<T>, rowId: T -> string)
      modifies this
      ensures rows == InitRows(data, rowId)
      ensures allSelected == old(allSelected) && search == old(search)
    {
      rows := InitRows(data, rowId);
    }

    method SetSearch(s: string)
      modifies this
      ensures search == s && rows == old(rows) && allSelected == old(allSelected)
    {
      search := s;
    }

    method ToggleRow(id: string)
      modifies this
      ensures rows == ToggleRowIn(old(rows), id)
      ensures allSelected == old(allSelected) && search == old(search)
    {
      rows := ToggleRowIn(rows, id);
    }

    /** `toggleAll`: every row takes the negation of the previous `allSelected`, which flips. */
    method ToggleAll()
      modifies this
      ensures allSelected == !old(allSelected)
      ensures rows == SetAll(old(rows), !old(allSelected))
      ensures search == old(search)
    {
      var was := allSelected;
      allSelected := !was;
      rows := SetAll(rows, !was);
    }
  }

  // ------------------------------------------------------------ CSV

  /** A CSV cell: a string value, or anything else with its `JSON.stringify` text. */
  datatype CellValue = Str(s: string) | Other(json: string)

  /** Each `"` doubled: `val.replace(/"/g, '""')`. */
  function DoubleQuotes(s: string): (r: string)
    ensures |r| >= |s|
  {
    if s == [] then []
    else (if s[0] == '"' then "\"\"" else [s[0]]) + DoubleQuotes(s[1..])
  }

  /** The inverse reading: a doubled quote stands for one quote. */
  function UndoubleQuotes(s: string): string
  {
    if s == [] then []
    else if s[0] == '"' && |s| >= 2 && s[1] == '"' then "\"" + UndoubleQuotes(s[2..])
    else [s[0]] + UndoubleQuotes(s[1..])
  }

  function EscapeCell(v: CellValue): string
  {
    match v
    case Str(s) => "\"" + DoubleQuotes(s) + "\""
    case Other(j) => j
  }

  /** Reading a quoted cell: drop the outer quotes, undouble the inner ones. */
  function UnescapeQuoted(cell: string): string
    requires |cell| >= 2
  {
    UndoubleQuotes(cell[1..|cell| - 1])
  }

  lemma {:induction false} UndoubleDouble(s: string)
    ensures UndoubleQuotes(DoubleQuotes(s)) == s
  {
    if s != [] {
      UndoubleDouble(s[1..]);
      if s[0] == '"' {
        assert DoubleQuotes(s) == "\"\"" + DoubleQuotes(s[1..]);
        assert (DoubleQuotes(s))[2..] == DoubleQuotes(s[1..]);
      } else {
        assert DoubleQuotes(s) == [s[0]] + DoubleQuotes(s[1..]);
        assert (DoubleQuotes(s))[1..] == DoubleQuotes(s[1..]);
      }
    }
  }

  /** Every string cell is quoted, and unescaping it gives the original string back. */
  lemma EscapeRoundTrip(s: string)
    ensures var cell := EscapeCell(Str(s));
            |cell| >= 2 && cell[0] == '"' && cell[|cell| - 1] == '"' && UnescapeQuoted(cell) == s
  {
    var cell := EscapeCell(Str(s));
    assert cell[1..|cell| - 1] == DoubleQuotes(s);
    UndoubleDouble(s);
  }

  /** Inside an escaped cell every quote is one of a doubled pair, so no quote ends the cell early. */
  lemma {:induction false} QuotesComeInPairs(s: string, i: int)
    requires 0 <= i < |DoubleQuotes(s)| && DoubleQuotes(s)[i] == '"'
    ensures (i + 1 < |DoubleQuotes(s)| && DoubleQuotes(s)[i + 1] == '"') || (i > 0 && DoubleQuotes(s)[i - 1] == '"')
    decreases |s|
  {
    var d := DoubleQuotes(s);
    var head := if s[0] == '"' then "\"\"" else [s[0]];
    assert d == head + DoubleQuotes(s[1..]);
    if i >= |head| {
      QuotesComeInPairs(s[1..], i - |head|);
    }
  }

  /** The export: one line of cells per filtered row, over the visible columns in order. */
  function ExportLines<T>(rows: seq<Row<T>>, columns: seq<T -> CellValue>): (r: seq<seq<string>>)
    ensures |r| == |rows|
    ensures forall i :: 0 <= i < |rows| ==>
              |r[i]| == |columns| && forall j :: 0 <= j < |columns| ==> r[i][j] == EscapeCell(columns[j](rows[i].original))
  {
    Map(rows, (x: Row<T>) => Map(columns, (c: T -> CellValue) => EscapeCell(c(x.original))))
  }

  /** The CSV text: the header line, then the row lines, joined by newlines. */
  function Csv(headers: seq<string>, lines: seq<seq<string>>): (r: string)
    ensures lines == [] ==> r == Join(headers, ",")
  {
    Join([Join(headers, ",")] + Map(lines, (l: seq<string>) => Join(l, ",")), "\n")
  }
}
