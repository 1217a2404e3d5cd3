/**
 * The windowing arithmetic of the virtualised table: which rows are drawn
 * for a scroll offset, and where each drawn row is placed.
 */
module VirtualizedTable {
  /** `Math.floor`. */
  function Floor(x: real): int { x.Floor }

  /** `Math.ceil`. */
  function Ceil(x: real): (c: int)
    ensures x <= c as real < x + 1.0
  {
    -((-x).Floor)
  }

  function Min(a: int, b: int): int { if a < b then a else b }

  /** The drawn slice `[start, end)` and the placement of its rows. */
  datatype Window = Window(start: int, end: int)

  /**
   * `start = floor(scrollTop / rowHeight)`,
   * `end = min(length, start + ceil(height / rowHeight) + 5)`.
   */
  function RowWindow(length: nat, scrollTop: real, height: real, rowHeight: real): (w: Window)
    requires rowHeight > 0.0
    ensures w.end <= length
  {
    var start := Floor(scrollTop / rowHeight);
    Window(start, Min(length, start + Ceil(height / rowHeight) + 5))
  }

  /** `data.slice(start, end)` for a non-negative `start`. */
  function Visible<T>(data: seq<T>, w: Window): (r: seq<T>)
    requires 0 <= w.start && w.end <= |data|
    ensures |r| == if w.start < w.end then w.end - w.start else 0
    ensures forall i :: 0 <= i < |r| ==> r[i] == data[w.start + i]
  {
    if w.start < w.end then data[w.start..w.end] else []
  }

  /** `totalHeight`: the scroll area is as tall as all the rows together. */
  function TotalHeight(length: nat, rowHeight: real): real
  {
    length as real * rowHeight
  }

  /** The `top` of the i-th drawn row. */
  function RowTop(w: Window, i: int, rowHeight: real): real
  {
    (w.start + i) as real * rowHeight
  }

  lemma FloorBounds(x: real)
    ensures Floor(x) as real <= x < Floor(x) as real + 1.0
  {
  }

  /**
   * Every row that intersects the viewport `[scrollTop, scrollTop + height)`
   * is drawn, and never more than `ceil(height / rowHeight) + 5` rows are.
   */
  lemma WindowCoversViewport(length: nat, scrollTop: real, height: real, rowHeight: real, k: int)
    requires rowHeight > 0.0 && scrollTop >= 0.0
    requires 0 <= k < length
    requires k as real * rowHeight < scrollTop + height && (k + 1) as real * rowHeight > scrollTop
    ensures var w := RowWindow(length, scrollTop, height, rowHeight);
            w.start <= k < w.end && w.end - w.start <= Ceil(height / rowHeight) + 5
  {
    var a := scrollTop / rowHeight;
    var b := height / rowHeight;
    assert a * rowHeight == scrollTop;
    assert b * rowHeight == height;
    FloorBounds(a);
    assert (k + 1) as real > a by {
      assert (k + 1) as real * rowHeight > a * rowHeight;
    }
    assert k as real < a + b by {
      assert k as real * rowHeight < (a + b) * rowHeight;
    }
  }

  /** Each drawn row sits at its own place in the full-height scroll area. */
  lemma DrawnRowsInsideScrollArea(length: nat, scrollTop: real, height: real, rowHeight: real, i: int)
    requires rowHeight > 0.0 && scrollTop >= 0.0
    requires var w := RowWindow(length, scrollTop, height, rowHeight); 0 <= i < w.end - w.start
    ensures var w := RowWindow(length, scrollTop, height, rowHeight);
            0.0 <= RowTop(w, i, rowHeight) && RowTop(w, i, rowHeight) + rowHeight <= TotalHeight(length, rowHeight)
  {
    var w := RowWindow(length, scrollTop, height, rowHeight);
    assert w.start >= 0 by {
      FloorBounds(scrollTop / rowHeight);
      assert scrollTop / rowHeight >= 0.0;
    }
    assert (w.start + i + 1) as real <= length as real;
  }

  /** Scrolled past the end, nothing is drawn. */
  lemma ScrolledPastEnd<T>(data: seq<T>, scrollTop: real, height: real, rowHeight: real)
    requires rowHeight > 0.0 && scrollTop >= |data| as real * rowHeight
    ensures var w := RowWindow(|data|, scrollTop, height, rowHeight);
            w.start >= 0 && Visible(data, w) == []
  {
    var a := scrollTop / rowHeight;
    assert a * rowHeight == scrollTop;
    assert a >= |data| as real;
  }
}
