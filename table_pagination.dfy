/**
 * The pager under every table: the page count, the previous/next guards,
 * the page buttons (a window of two either side, plus the first and last
 * pages) and the "first-last of total" label.
 */
module TablePagination {
  import opened Seqs

  /** `Math.ceil(a / b)` for a positive divisor. */
  function CeilDiv(a: int, b: int): (c: int)
    requires b >= 1
    ensures (c - 1) * b < a <= c * b
  {
    var q := (-a) / b;
    assert -a == q * b + (-a) % b;
    -q
  }

  /** `Math.max(1, Math.ceil(total / pageSize))`. */
  function TotalPages(total: int, pageSize: int): (r: int)
    requires pageSize >= 1
    ensures r >= 1
    ensures total > 0 ==> (r - 1) * pageSize < total <= r * pageSize
    ensures total <= 0 ==> r == 1
  {
    var c := CeilDiv(total, pageSize);
    if c < 1 then 1 else c
  }

  lemma MulLe(a: int, b: int, k: int)
    requires a <= b && k >= 0
    ensures a * k <= b * k
  {
  }

  /** `canNext`: a later page exists exactly when rows remain past this one. */
  lemma CanNextIffMoreRows(page: int, pageSize: int, total: int)
    requires pageSize >= 1 && page >= 1
    ensures page < TotalPages(total, pageSize) <==> page * pageSize < total
  {
    var tp := TotalPages(total, pageSize);
    if page < tp {
      MulLe(page, tp - 1, pageSize);
    } else {
      MulLe(tp, page, pageSize);
      MulLe(1, page, pageSize);
    }
  }

  /** `canPrev`: only past the first page, that is when the page before is a page number. */
  function CanPrev(page: int): (r: bool)
    ensures r <==> page - 1 in Span(1, page)
  {
    if page > 1 then assert Span(1, page)[page - 2] == page - 1; true else false
  }

  /** "Next" is enabled when the page after is one of the pages. */
  function CanNext(page: int, totalPages: int): (r: bool)
    ensures page >= 1 ==> (r <==> page + 1 in Span(1, totalPages + 1))
  {
    if page < totalPages then assert page >= 1 ==> Span(1, totalPages + 1)[page] == page + 1; true else false
  }

  /** The pages `lo`, `lo + 1`, …, `hi - 1`. */
  function Span(lo: int, hi: int): (r: seq<int>)
    ensures |r| == if hi <= lo then 0 else hi - lo
    ensures forall i :: 0 <= i < |r| ==> r[i] == lo + i
  {
    if hi <= lo then [] else seq(hi - lo, i => lo + i)
  }

  function Max(a: int, b: int): int { if a < b then b else a }
  function Min(a: int, b: int): int { if a < b then a else b }

  /** The window of two pages either side of `page`, clipped to the page range. */
  predicate InWindow(p: int, page: int, totalPages: int)
  {
    Max(1, page - 2) <= p <= Min(totalPages, page + 2)
  }

  /** Page 1 put in front and the last page put at the end, when missing. */
  function Framed(range: seq<int>, totalPages: int): seq<int>
  {
    WithLastPage(WithFirstPage(range), totalPages)
  }

  function WithFirstPage(range: seq<int>): (a: seq<int>)
    ensures a != []
  {
    if |range| == 0 || range[0] != 1 then [1] + range else range
  }

  function WithLastPage(a: seq<int>, totalPages: int): seq<int>
    requires a != []
  {
    if a[|a| - 1] != totalPages then a + [totalPages] else a
  }

  predicate Ascending(s: seq<int>)
  {
    forall i, j :: 0 <= i < j < |s| ==> s[i] < s[j]
  }

  lemma AscendingCons(x: int, s: seq<int>)
    requires Ascending(s) && (s == [] || x < s[0])
    ensures Ascending([x] + s)
  {
    var r := [x] + s;
    forall i, j | 0 <= i < j < |r| ensures r[i] < r[j] {
      if i > 0 {
        assert r[i] == s[i - 1] && r[j] == s[j - 1];
      } else {
        assert r[j] == s[j - 1];
        assert j - 1 > 0 ==> s[0] < s[j - 1];
      }
    }
  }

  lemma AscendingSnoc(s: seq<int>, x: int)
    requires Ascending(s) && (s == [] || s[|s| - 1] < x)
    ensures Ascending(s + [x])
  {
    var r := s + [x];
    forall i, j | 0 <= i < j < |r| ensures r[i] < r[j] {
      if j < |s| {
        assert r[i] == s[i] && r[j] == s[j];
      } else {
        assert r[i] == s[i];
        assert i < |s| - 1 ==> s[i] < s[|s| - 1];
      }
    }
  }

  lemma AscendingDistinct(s: seq<int>)
    requires Ascending(s)
    ensures Distinct(s)
  {
  }

  /** The span `lo..hi` is ascending and holds exactly the pages between its bounds. */
  lemma SpanMembers(lo: int, hi: int)
    ensures var w := Span(lo, hi + 1);
            Ascending(w) && (forall q :: q in w <==> lo <= q <= hi) &&
            (w != [] ==> w[0] == lo && w[|w| - 1] == hi)
  {
    var w := Span(lo, hi + 1);
    forall q | lo <= q <= hi ensures q in w {
      assert w[q - lo] == q;
    }
  }

  /** Putting page 1 in front of an ascending list of pages from `1..totalPages` keeps it ascending and within range. */
  lemma FirstPageAscending(w: seq<int>, totalPages: int)
    requires Ascending(w) && totalPages >= 1
    requires w != [] ==> 1 <= w[0] && w[|w| - 1] <= totalPages
    ensures var a := WithFirstPage(w);
            a[0] == 1 && a[|a| - 1] <= totalPages && Ascending(a)
            && forall p :: p in a <==> p == 1 || p in w
  {
    if |w| == 0 || w[0] != 1 {
      AscendingCons(1, w);
    }
  }

  /** Putting the last page at the end of an ascending list from page 1 keeps it ascending. */
  lemma LastPageAscending(a: seq<int>, totalPages: int)
    requires Ascending(a) && a != [] && a[0] == 1 && a[|a| - 1] <= totalPages
    ensures var r := WithLastPage(a, totalPages);
            |r| >= 1 && r[0] == 1 && r[|r| - 1] == totalPages && Ascending(r)
            && forall p :: p in r <==> p == totalPages || p in a
  {
    if a[|a| - 1] != totalPages {
      AscendingSnoc(a, totalPages);
    }
  }

  /** Framing an ascending list of pages within `1..totalPages` adds page 1 and the last page, keeping it ascending. */
  lemma FramedAscending(w: seq<int>, totalPages: int)
    requires Ascending(w) && totalPages >= 1
    requires w != [] ==> 1 <= w[0] && w[|w| - 1] <= totalPages
    ensures var r := Framed(w, totalPages);
            |r| >= 1 && r[0] == 1 && r[|r| - 1] == totalPages && Ascending(r)
            && forall p :: p in r <==> p == 1 || p == totalPages || p in w
  {
    FirstPageAscending(w, totalPages);
    LastPageAscending(WithFirstPage(w), totalPages);
  }

  /** Framing the clipped window gives ascending pages from 1 to the last page. */
  lemma FramedWindow(lo: int, hi: int, totalPages: int)
    requires 1 <= lo && hi <= totalPages && totalPages >= 1
    ensures var r := Framed(Span(lo, hi + 1), totalPages);
            |r| >= 1 && r[0] == 1 && r[|r| - 1] == totalPages && Ascending(r)
            && forall p :: p in r <==> p == 1 || p == totalPages || lo <= p <= hi
  {
    SpanMembers(lo, hi);
    FramedAscending(Span(lo, hi + 1), totalPages);
  }

  /**
   * `pagesToRender`: the window, with page 1 put in front and the last page
   * put at the end when missing, then deduplicated. The buttons are always
   * ascending, first and last included, and nothing else beyond the window.
   */
  method PagesToRender(page: int, totalPages: int) returns (r: seq<int>)
    requires totalPages >= 1
    ensures |r| >= 1 && r[0] == 1 && r[|r| - 1] == totalPages
    ensures Ascending(r)
    ensures forall p :: p in r <==> p == 1 || p == totalPages || InWindow(p, page, totalPages)
  {
    var lo := Max(1, page - 2);
    var hi := Min(totalPages, page + 2);
    var window := WindowPages(lo, hi);
    var range := FramePages(window, totalPages);
    FramedWindow(lo, hi, totalPages);
    AscendingDistinct(range);
    DedupDistinct(range);
    r := Dedup(range);
    assert r == range;
  }

  /** The loop collecting the pages `lo..hi` of the window. */
  method WindowPages(lo: int, hi: int) returns (range: seq<int>)
    ensures range == Span(lo, hi + 1)
  {
    range := [];
    var p := lo;
    while p <= hi
      invariant lo <= p <= Max(lo, hi + 1)
      invariant range == Span(lo, p)
      decreases hi - p
    {
      range := range + [p];
      p := p + 1;
    }
  }

  /** `unshift(1)` when page 1 is missing, then `push(totalPages)` when the last page is. */
  method FramePages(window: seq<int>, totalPages: int) returns (range: seq<int>)
    ensures range == Framed(window, totalPages)
  {
    range := window;
    if |range| == 0 || range[0] != 1 {
      range := [1] + range;
    }
    assert range == WithFirstPage(window);
    if range[|range| - 1] != totalPages {
      range := range + [totalPages];
    }
  }

  /** The label `(page-1)*pageSize + 1` to `min(page*pageSize, total)`. */
  function RangeLabel(page: int, pageSize: int, total: int): (r: (int, int))
    ensures r.1 <= total && r.1 - r.0 < pageSize
    ensures page * pageSize <= total ==> r.1 - r.0 == pageSize - 1
  {
    ((page - 1) * pageSize + 1, Min(page * pageSize, total))
  }

  /** On an existing page of a non-empty table, the label names at most a page of real rows. */
  lemma RangeLabelBounds(page: int, pageSize: int, total: int)
    requires pageSize >= 1 && total >= 1 && 1 <= page <= TotalPages(total, pageSize)
    ensures var (first, last) := RangeLabel(page, pageSize, total);
            1 <= first <= last <= total && last - first < pageSize
  {
    MulLe(page - 1, TotalPages(total, pageSize) - 1, pageSize);
    MulLe(0, page - 1, pageSize);
  }

  /** An empty table still labels its single page "1-0". */
  lemma EmptyTableLabel(pageSize: int)
    requires pageSize >= 1
    ensures TotalPages(0, pageSize) == 1 && RangeLabel(1, pageSize, 0) == (1, 0)
  {
  }
}
