/**
 * The layout engine: where each Axes of a Figure goes in the window.
 * Axes are laid out row by row in a grid of one column (a single Axes)
 * or two columns (several Axes); inside its cell each Axes keeps a
 * margin of 12% (left), 5% (right), 10% (top) and 15% (bottom).
 */
module Layout {
  import opened Types

  function Columns(n: int): (c: int)
    ensures c == 1 || c == 2
    ensures c == 2 <==> n > 1
  {
    if n > 1 then 2 else 1
  }

  /** `rows = ceil(n / cols)` in integer arithmetic. */
  function Rows(n: int): (r: int)
    requires n > 0
    ensures r >= 1 && r * Columns(n) >= n
    ensures (r - 1) * Columns(n) < n
  {
    (n + Columns(n) - 1) / Columns(n)
  }

  function CellWidth(n: int, windowW: real): real
    requires n > 0
  {
    windowW / Columns(n) as real
  }

  function CellHeight(n: int, windowH: real): real
    requires n > 0
  {
    windowH / Rows(n) as real
  }

  /** The grid row and column of Axes `i`: `i / cols` and `i % cols`. */
  function RowOf(n: int, i: int): int {
    i / Columns(n)
  }

  function ColumnOf(n: int, i: int): int {
    i % Columns(n)
  }

  /** The whole grid cell of Axes `i`. */
  function Cell(n: int, i: int, windowW: real, windowH: real): Rect
    requires 0 <= i < n
  {
    var cw := CellWidth(n, windowW);
    var ch := CellHeight(n, windowH);
    Rect(ColumnOf(n, i) as real * cw, RowOf(n, i) as real * ch, cw, ch)
  }

  /** The rectangle `update_layout` gives Axes `i` of `n` in a `windowW` x `windowH` window. */
  function AxesRect(n: int, i: int, windowW: real, windowH: real): Rect
    requires 0 <= i < n
  {
    var cw := CellWidth(n, windowW);
    var ch := CellHeight(n, windowH);
    var padLeft := cw * 0.12;
    var padRight := cw * 0.05;
    var padTop := ch * 0.10;
    var padBottom := ch * 0.15;
    Rect(ColumnOf(n, i) as real * cw + padLeft, RowOf(n, i) as real * ch + padTop,
         cw - (padLeft + padRight), ch - (padTop + padBottom))
  }

  /**
   * Axes `i` sits in a cell of the grid: its row is below `rows` and its
   * column below `cols`, and no two Axes share a cell.
   */
  lemma GridPlacement(n: int, i: int, j: int)
    requires 0 <= i < n && 0 <= j < n
    ensures 0 <= RowOf(n, i) < Rows(n) && 0 <= ColumnOf(n, i) < Columns(n)
    ensures RowOf(n, i) * Columns(n) + ColumnOf(n, i) == i
    ensures i != j ==> RowOf(n, i) != RowOf(n, j) || ColumnOf(n, i) != ColumnOf(n, j)
  {
    if n > 1 {
      assert Rows(n) == (n + 1) / 2;
      assert RowOf(n, i) == i / 2 && ColumnOf(n, i) == i % 2;
      assert RowOf(n, j) == j / 2 && ColumnOf(n, j) == j % 2;
    } else {
      assert Rows(n) == n;
    }
  }

  /** Slot `k` of `m` equal slots of a span of length `span` lies within the span. */
  lemma SlotInSpan(k: int, m: int, span: real)
    requires 0 <= k < m && span >= 0.0
    ensures 0.0 <= k as real * (span / m as real)
    ensures k as real * (span / m as real) + span / m as real <= span
  {
    var s := span / m as real;
    assert s * m as real == span;
    MulMono(0.0, k as real, s);
    MulMono((k + 1) as real, m as real, s);
    assert (k + 1) as real * s == k as real * s + s;
  }

  /** The cell of Axes `i` lies within the window `[0, W] x [0, H]`. */
  lemma CellInWindow(n: int, i: int, windowW: real, windowH: real)
    requires 0 <= i < n && windowW >= 0.0 && windowH >= 0.0
    ensures var c := Cell(n, i, windowW, windowH);
      0.0 <= c.x && c.x + c.w <= windowW && 0.0 <= c.y && c.y + c.h <= windowH
  {
    GridPlacement(n, i, i);
    SlotInSpan(ColumnOf(n, i), Columns(n), windowW);
    SlotInSpan(RowOf(n, i), Rows(n), windowH);
  }

  /** With a window of positive size, the Axes rectangle lies strictly inside its own cell. */
  lemma AxesInsideCell(n: int, i: int, windowW: real, windowH: real)
    requires 0 <= i < n && windowW > 0.0 && windowH > 0.0
    ensures Cell(n, i, windowW, windowH).StrictlyContains(AxesRect(n, i, windowW, windowH))
    ensures AxesRect(n, i, windowW, windowH).w == 0.83 * CellWidth(n, windowW) > 0.0
    ensures AxesRect(n, i, windowW, windowH).h == 0.75 * CellHeight(n, windowH) > 0.0
  {
  }

  /**
   * Layout coverage: every Axes rectangle lies within the window and has
   * positive width and height whenever the window does.
   */
  lemma AxesInWindow(n: int, i: int, windowW: real, windowH: real)
    requires 0 <= i < n && windowW >= 0.0 && windowH >= 0.0
    ensures var r := AxesRect(n, i, windowW, windowH);
      0.0 <= r.x && r.x + r.w <= windowW && 0.0 <= r.y && r.y + r.h <= windowH &&
      (r.w > 0.0 <==> windowW > 0.0) && (r.h > 0.0 <==> windowH > 0.0)
  {
    CellInWindow(n, i, windowW, windowH);
  }

  /** Two distinct Axes of one Figure never overlap. */
  lemma AxesDisjoint(n: int, i: int, j: int, windowW: real, windowH: real)
    requires 0 <= i < n && 0 <= j < n && i != j
    requires windowW > 0.0 && windowH > 0.0
    ensures Disjoint(AxesRect(n, i, windowW, windowH), AxesRect(n, j, windowW, windowH))
  {
    GridPlacement(n, i, j);
    if ColumnOf(n, i) < ColumnOf(n, j) {
      ColumnsApart(n, i, j, windowW, windowH);
    } else if ColumnOf(n, j) < ColumnOf(n, i) {
      ColumnsApart(n, j, i, windowW, windowH);
    } else if RowOf(n, i) < RowOf(n, j) {
      RowsApart(n, i, j, windowW, windowH);
    } else {
      RowsApart(n, j, i, windowW, windowH);
    }
  }

  /** An Axes in an earlier column ends, margins included, before one in a later column begins. */
  lemma ColumnsApart(n: int, i: int, j: int, windowW: real, windowH: real)
    requires 0 <= i < n && 0 <= j < n && ColumnOf(n, i) < ColumnOf(n, j) && windowW > 0.0
    ensures AxesRect(n, i, windowW, windowH).x + AxesRect(n, i, windowW, windowH).w
          < AxesRect(n, j, windowW, windowH).x
  {
    var cw := CellWidth(n, windowW);
    var ci, cj := ColumnOf(n, i), ColumnOf(n, j);
    var p, q := ci as real * cw, cj as real * cw;
    SlotsApart(ci, cj, cw, p, q);
    var a, b := AxesRect(n, i, windowW, windowH), AxesRect(n, j, windowW, windowH);
    assert a.x == p + cw * 0.12 && b.x == q + cw * 0.12;
    assert cw > 0.0 && a.w == 0.83 * cw;
    MarginsApart(p, q, cw, cw * 0.12, a.w);
  }

  /** An Axes in an earlier row ends, margins included, before one in a later row begins. */
  lemma RowsApart(n: int, i: int, j: int, windowW: real, windowH: real)
    requires 0 <= i < n && 0 <= j < n && RowOf(n, i) < RowOf(n, j) && windowH > 0.0
    ensures AxesRect(n, i, windowW, windowH).y + AxesRect(n, i, windowW, windowH).h
          < AxesRect(n, j, windowW, windowH).y
  {
    var ch := CellHeight(n, windowH);
    var ri, rj := RowOf(n, i), RowOf(n, j);
    var p, q := ri as real * ch, rj as real * ch;
    SlotsApart(ri, rj, ch, p, q);
    var a, b := AxesRect(n, i, windowW, windowH), AxesRect(n, j, windowW, windowH);
    assert a.y == p + ch * 0.10 && b.y == q + ch * 0.10;
    assert ch > 0.0 && a.h == 0.75 * ch;
    MarginsApart(p, q, ch, ch * 0.10, a.h);
  }

  /** Slot `k` of width `s` ends where slot `k + 1` begins, so no later than slot `m > k` begins. */
  lemma SlotsApart(k: int, m: int, s: real, p: real, q: real)
    requires k < m && s >= 0.0 && p == k as real * s && q == m as real * s
    ensures p + s <= q
  {
    MulMono(1.0, (m - k) as real, s);
    assert q - p == (m - k) as real * s;
  }

  /** A box narrower than its slot, at the same offset in both slots, ends before the later box begins. */
  lemma MarginsApart(p: real, q: real, s: real, pad: real, size: real)
    requires p + s <= q && size < s
    ensures p + pad + size < q + pad
  {
  }

  /**
   * The four-subplot dashboard at 1024 x 768: a 2 x 2 grid with Axes 0 in the
   * top-left cell and Axes 3 in the bottom-right one, each 424.96 x 288 pixels.
   */
  lemma FourSubplotDashboard()
    ensures Columns(4) == 2 && Rows(4) == 2
    ensures AxesRect(4, 0, 1024.0, 768.0) == Rect(61.44, 38.4, 424.96, 288.0)
    ensures AxesRect(4, 1, 1024.0, 768.0) == Rect(573.44, 38.4, 424.96, 288.0)
    ensures AxesRect(4, 2, 1024.0, 768.0) == Rect(61.44, 422.4, 424.96, 288.0)
    ensures AxesRect(4, 3, 1024.0, 768.0) == Rect(573.44, 422.4, 424.96, 288.0)
  {
  }

  /** The fixed-fraction rectangle that the single-Axes layout gives every Axes. */
  function LegacyAxesRect(windowW: real, windowH: real): (r: Rect)
    ensures windowW >= 0.0 && windowH >= 0.0 ==>
      0.0 <= r.x && r.x + r.w <= windowW && 0.0 <= r.y && r.y + r.h <= windowH
    ensures windowW > 0.0 && windowH > 0.0 ==>
      Rect(0.0, 0.0, windowW, windowH).StrictlyContains(r)
    ensures r.x == 0.15 * windowW && r.y == 0.15 * windowH
  {
    Rect(windowW * 0.15, windowH * 0.15, windowW * 0.70, windowH * 0.65)
  }
}
