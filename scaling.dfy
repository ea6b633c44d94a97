/**
 * The 2D coordinate mapping of `render_axes_2d`: data values are mapped
 * linearly into the Axes rectangle, with 10% head-room beyond the data
 * span; screen y grows downwards, so the y mapping is inverted. Six
 * ticks (ratios 0, 1/5, ..., 1) are spread evenly along each edge.
 */
module Scaling {
  import opened Types

  /**
   * The divisor of the data-to-pixel mapping: the data span padded by 10%,
   * or 1 when the span is empty or negative (no data yet, or one value).
   */
  function DataRange(diff: real): (r: real)
    ensures r > 0.0
    ensures diff > 0.0 ==> r > diff
    ensures diff <= 0.0 ==> r == 1.0
  {
    if diff > 0.0 then diff * 1.1 else 1.0
  }

  /** Screen x of data value `v`, for an Axes with x limits `lo`, `hi`. */
  function PixelX(rect: Rect, lo: real, hi: real, v: real): real {
    rect.x + ((v - lo) / DataRange(hi - lo)) * rect.w
  }

  /** Screen y of data value `v`; the bottom edge of the rectangle is the data minimum. */
  function PixelY(rect: Rect, lo: real, hi: real, v: real): real {
    (rect.y + rect.h) - ((v - lo) / DataRange(hi - lo)) * rect.h
  }

  lemma DivMono(a: real, b: real, d: real)
    requires a <= b && d > 0.0
    ensures a / d <= b / d
  {
  }

  /** The data minimum sits on the left edge (x) and on the bottom edge (y). */
  lemma MinimumOnEdges(rect: Rect, lo: real, hi: real)
    ensures PixelX(rect, lo, hi, lo) == rect.x
    ensures PixelY(rect, lo, hi, lo) == rect.y + rect.h
  {
  }

  /**
   * With a non-empty data span the data maximum lands at 1/1.1 of the
   * width (and height), strictly inside the rectangle when it has area.
   */
  lemma MaximumInside(rect: Rect, lo: real, hi: real)
    requires lo < hi
    ensures PixelX(rect, lo, hi, hi) == rect.x + rect.w / 1.1
    ensures PixelY(rect, lo, hi, hi) == rect.y + rect.h - rect.h / 1.1
    ensures rect.w > 0.0 ==> rect.x < PixelX(rect, lo, hi, hi) < rect.x + rect.w
    ensures rect.h > 0.0 ==> rect.y < PixelY(rect, lo, hi, hi) < rect.y + rect.h
  {
    var d := hi - lo;
    assert (hi - lo) / (d * 1.1) == 1.0 / 1.1;
  }

  /** Offsets in data map to proportional offsets on screen. */
  lemma PixelXScales(rect: Rect, lo: real, hi: real, u: real, v: real)
    ensures PixelX(rect, lo, hi, v) - PixelX(rect, lo, hi, u)
         == (v - u) / DataRange(hi - lo) * rect.w
  {
    var r := DataRange(hi - lo);
    assert (v - lo) / r - (u - lo) / r == (v - u) / r;
  }

  /** The x mapping is monotone and the y mapping antitone (for a rectangle of non-negative size). */
  lemma {:induction false} PixelMonotone(rect: Rect, lo: real, hi: real, u: real, v: real)
    requires u <= v && rect.w >= 0.0 && rect.h >= 0.0
    ensures PixelX(rect, lo, hi, u) <= PixelX(rect, lo, hi, v)
    ensures PixelY(rect, lo, hi, u) >= PixelY(rect, lo, hi, v)
  {
    var r := DataRange(hi - lo);
    DivMono(u - lo, v - lo, r);
    MulMono((u - lo) / r, (v - lo) / r, rect.w);
    MulMono((u - lo) / r, (v - lo) / r, rect.h);
  }

  /**
   * Every value within the data limits is drawn within the Axes rectangle,
   * so a series never leaves its plot area.
   */
  lemma {:induction false} DataInsideRect(rect: Rect, lo: real, hi: real, v: real)
    requires lo <= v <= hi && rect.w >= 0.0 && rect.h >= 0.0
    ensures rect.x <= PixelX(rect, lo, hi, v) <= rect.x + rect.w
    ensures rect.y <= PixelY(rect, lo, hi, v) <= rect.y + rect.h
  {
    var r := DataRange(hi - lo);
    var t := (v - lo) / r;
    DivMono(0.0, v - lo, r);
    DivMono(v - lo, hi - lo, r);
    assert (hi - lo) / r <= 1.0;
    MulMono(0.0, t, rect.w);
    MulMono(t, 1.0, rect.w);
    MulMono(0.0, t, rect.h);
    MulMono(t, 1.0, rect.h);
  }

  /** The number of tick intervals; ticks are drawn for `i = 0 .. TickCount`. */
  const TickCount: int := 5

  function TickRatio(i: int): real {
    i as real / TickCount as real
  }

  /** Screen x of tick `i` on the x axis. */
  function XTickPos(rect: Rect, i: int): real {
    rect.x + TickRatio(i) * rect.w
  }

  /** Screen y of tick `i` on the y axis. */
  function YTickPos(rect: Rect, i: int): real {
    (rect.y + rect.h) - TickRatio(i) * rect.h
  }

  /** The value printed at tick `i`, as the library computes it: the data span split in five. */
  function TickValue(lo: real, hi: real, i: int): real {
    lo + TickRatio(i) * (hi - lo)
  }

  /** The six ticks run from one edge of the rectangle to the other in equal steps. */
  lemma TicksSpanEdges(rect: Rect, i: int)
    ensures XTickPos(rect, 0) == rect.x && XTickPos(rect, TickCount) == rect.x + rect.w
    ensures YTickPos(rect, 0) == rect.y + rect.h && YTickPos(rect, TickCount) == rect.y
    ensures XTickPos(rect, i + 1) - XTickPos(rect, i) == rect.w / 5.0
    ensures YTickPos(rect, i) - YTickPos(rect, i + 1) == rect.h / 5.0
  {
  }

  /**
   * The first and last tick values are the data limits, as the library
   * labels them.
   */
  lemma TickValuesSpanData(lo: real, hi: real)
    ensures TickValue(lo, hi, 0) == lo && TickValue(lo, hi, TickCount) == hi
  {
  }

  /**
   * As written, the printed tick values do not match where data is drawn:
   * with a non-empty span, the value printed at tick `i > 0` is drawn at only
   * 1/1.1 of the tick's distance from the left edge, so it sits left of its tick.
   */
  lemma TickLabelsOffData(rect: Rect, lo: real, hi: real, i: int)
    requires lo < hi && rect.w > 0.0 && 0 < i <= TickCount
    ensures PixelX(rect, lo, hi, TickValue(lo, hi, i)) - rect.x == (XTickPos(rect, i) - rect.x) / 1.1
    ensures PixelX(rect, lo, hi, TickValue(lo, hi, i)) < XTickPos(rect, i)
  {
    var d := hi - lo;
    var t := TickRatio(i);
    var e := d * 1.1;
    assert TickValue(lo, hi, i) - lo == t * d;
    assert t * d == (t / 1.1) * e;
    CancelDivisor(t / 1.1, e);
  }

  lemma CancelDivisor(a: real, e: real)
    requires e != 0.0
    ensures (a * e) / e == a
  {
  }

  /**
   * The tick value that matches the drawing: the padded range, not the bare
   * data span, split in five.
   */
  function CorrectedTickValue(lo: real, hi: real, i: int): real {
    lo + TickRatio(i) * DataRange(hi - lo)
  }

  /** Every corrected tick value is drawn exactly at its tick, on both axes and for every data range. */
  lemma CorrectedTicksOnData(rect: Rect, lo: real, hi: real, i: int)
    ensures PixelX(rect, lo, hi, CorrectedTickValue(lo, hi, i)) == XTickPos(rect, i)
    ensures PixelY(rect, lo, hi, CorrectedTickValue(lo, hi, i)) == YTickPos(rect, i)
  {
    var r := DataRange(hi - lo);
    assert (TickRatio(i) * r) / r == TickRatio(i);
  }

  /** The square marker of a scatter point: side `size`, centred on the point. */
  function Marker(px: real, py: real, size: real): (r: Rect)
    ensures r.w == size && r.h == size
    ensures r.x + r.w / 2.0 == px && r.y + r.h / 2.0 == py
  {
    Rect(px - size / 2.0, py - size / 2.0, size, size)
  }
}
