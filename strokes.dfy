/**
 * Stroke geometry: thick lines drawn as a quad around the segment, and
 * dashed or dotted lines cut into dashes along the segment.
 *
 * A dashed line of length `dist` is drawn as dashes that start every
 * `dash + gap` pixels and are clipped at the end of the segment. The unit
 * direction of the segment (the cosine and sine of its angle) is
 * `(dx / dist, dy / dist)`; `dist` itself, a square root, is a parameter
 * with `dist * dist == dx * dx + dy * dy`.
 */
module Strokes {
  import opened Types

  /** Dash and gap lengths, in pixels. */
  datatype Pattern = Pattern(dash: real, gap: real) {
    function Step(): real {
      dash + gap
    }

    /** Every pattern of the library uses dashes and gaps of at least one pixel. */
    predicate Valid() {
      dash >= 1.0 && gap >= 1.0
    }
  }

  /** The pattern of `DrawDashedThickLine`: 10/5 for dashed lines, 3/3 for anything else. */
  function ThickPattern(style: LineStyle): (p: Pattern)
    ensures p.Valid()
    ensures style == Dashed ==> p.Step() == 15.0
    ensures style != Dashed ==> p.dash == p.gap
  {
    if style == Dashed then Pattern(10.0, 5.0) else Pattern(3.0, 3.0)
  }

  /** The pattern of the one-pixel `SDL_RenderLineDashed`: 10/5 for dashed, 2/4 for dotted lines. */
  function ThinPattern(style: LineStyle): (p: Pattern)
    ensures p.Valid()
    ensures p.Step() == (if style == Dashed then 15.0 else 6.0)
  {
    if style == Dashed then Pattern(10.0, 5.0) else Pattern(2.0, 4.0)
  }

  /** A stretch `[start, end]` of the parameter along a segment, measured in pixels from its start. */
  datatype Interval = Interval(start: real, end: real)

  function Min(a: real, b: real): real {
    if a < b then a else b
  }

  /** Dash `k`: it starts at `k * step` and is clipped at the end of the segment. */
  function DashAt(k: nat, dist: real, p: Pattern): Interval {
    Interval(k as real * p.Step(), Min(k as real * p.Step() + p.dash, dist))
  }

  /**
   * The dash loop of `DrawDashedThickLine`: `i` runs from 0 in steps of
   * `dash + gap` while it is below `dist`, and each round emits one dash.
   * The result is dash `k` for exactly those `k` whose start lies before
   * `dist`: every emitted dash starts before the end, the next would not.
   */
  method DashIntervals(dist: real, p: Pattern) returns (dashes: seq<Interval>)
    requires p.Valid()
    ensures forall k :: 0 <= k < |dashes| ==> dashes[k] == DashAt(k, dist, p) && dashes[k].start < dist
    ensures DashAt(|dashes|, dist, p).start >= dist
  {
    var step := p.Step();
    dashes := [];
    var i := 0.0;
    while i < dist
      invariant i == |dashes| as real * step
      invariant forall k :: 0 <= k < |dashes| ==> dashes[k] == DashAt(k, dist, p) && dashes[k].start < dist
      decreases (dist - i).Floor
    {
      var segmentEnd := i + p.dash;
      if segmentEnd > dist {
        segmentEnd := dist;
      }
      dashes := dashes + [Interval(i, segmentEnd)];
      i := i + step;
    }
  }

  /** A segment of zero length gets no dashes, and a longer one at least one. */
  lemma NoDashesIffEmpty(dist: real, p: Pattern, dashes: seq<Interval>)
    requires p.Valid()
    requires forall k :: 0 <= k < |dashes| ==> dashes[k] == DashAt(k, dist, p) && dashes[k].start < dist
    requires DashAt(|dashes|, dist, p).start >= dist
    ensures |dashes| == 0 <==> dist <= 0.0
  {
    if |dashes| > 0 {
      assert dashes[0].start == 0.0;
    }
  }

  /** Each emitted dash is a non-empty stretch within the segment `[0, dist]`, at most one dash long. */
  lemma DashInSegment(k: nat, dist: real, p: Pattern)
    requires p.Valid() && DashAt(k, dist, p).start < dist
    ensures 0.0 <= DashAt(k, dist, p).start < DashAt(k, dist, p).end <= dist
    ensures DashAt(k, dist, p).end - DashAt(k, dist, p).start <= p.dash
  {
  }

  /** Dashes are ordered along the segment and a later dash begins at least one gap after an earlier one ends. */
  lemma {:induction false} DashesApart(k: nat, l: nat, dist: real, p: Pattern)
    requires p.Valid() && k < l
    ensures DashAt(k, dist, p).end + p.gap <= DashAt(l, dist, p).start
  {
    var s := p.Step();
    assert (k + 1) as real * s == k as real * s + s;
    assert (k + 1) as real * s <= l as real * s by {
      assert (l - (k + 1)) as real * s >= 0.0;
    }
  }

  /** The round of the dash loop in which the parameter passes `t`: the largest `k` with `k * step <= t`. */
  function RoundOf(t: real, step: real): (k: nat)
    requires t >= 0.0 && step >= 1.0
    ensures k as real * step <= t < (k + 1) as real * step
    decreases t.Floor
  {
    if t < step then 0 else
      var k := RoundOf(t - step, step);
      assert (k + 1) as real * step == k as real * step + step;
      k + 1
  }

  /**
   * The dashes and the gaps between them tile the segment: every point `t`
   * of `[0, dist)` lies in some emitted round `k`, and there it is on dash
   * `k` exactly when it is at most one dash length past the dash's start;
   * otherwise it is in the gap before the next round.
   */
  lemma {:induction false} DashesTileSegment(t: real, dist: real, p: Pattern, dashes: seq<Interval>)
    requires p.Valid() && 0.0 <= t < dist
    requires forall k :: 0 <= k < |dashes| ==> dashes[k] == DashAt(k, dist, p) && dashes[k].start < dist
    requires DashAt(|dashes|, dist, p).start >= dist
    ensures exists k :: (0 <= k < |dashes| && dashes[k].start <= t < dashes[k].start + p.Step() &&
                         (t <= dashes[k].end <==> t <= dashes[k].start + p.dash))
  {
    var s := p.Step();
    var k := RoundOf(t, s);
    assert (k + 1) as real * s == k as real * s + s;
    assert dashes[k].start <= t < dashes[k].start + s;
  }

  /**
   * The point at distance `t` from `a` towards `b`: `a + t * (cos, sin)` of
   * the segment's angle, the cosine and sine being `dx / dist` and `dy / dist`.
   */
  function AlongSegment(a: Point, b: Point, dist: real, t: real): Point
    requires dist != 0.0
  {
    Point(a.x + ((b.x - a.x) / dist) * t, a.y + ((b.y - a.y) / dist) * t)
  }

  /** The parameter runs from the start point (at 0) to the end point (at `dist`), linearly. */
  lemma AlongSegmentEnds(a: Point, b: Point, dist: real)
    requires dist != 0.0
    ensures AlongSegment(a, b, dist, 0.0) == a
    ensures AlongSegment(a, b, dist, dist) == b
  {
    assert (b.x - a.x) / dist * dist == b.x - a.x;
    assert (b.y - a.y) / dist * dist == b.y - a.y;
  }

  // ----- Thick lines -----

  /** What a stroke request emits: a plain one-pixel line, a filled quad, or nothing. */
  datatype Stroke = ThinLine(from: Point, to: Point) | Quad(c0: Point, c1: Point, c2: Point, c3: Point) | NoStroke

  predicate IsLength(len: real, a: Point, b: Point) {
    len >= 0.0 && len * len == (b.x - a.x) * (b.x - a.x) + (b.y - a.y) * (b.y - a.y)
  }

  function Mid(a: Point, b: Point): Point {
    Point((a.x + b.x) / 2.0, (a.y + b.y) / 2.0)
  }

  /**
   * `RenderThickLine`: a thickness of at most one pixel draws a plain line;
   * a segment of zero length draws nothing; otherwise the quad whose corners
   * are the end points moved by half the thickness either way along the
   * normal `(-uy, ux)` of the unit direction `(ux, uy)`.
   */
  function ThickLine(a: Point, b: Point, thickness: real, len: real): (s: Stroke)
    requires IsLength(len, a, b)
    ensures thickness <= 1.0 <==> s == ThinLine(a, b)
    ensures s == NoStroke <==> thickness > 1.0 && len == 0.0
    ensures s.Quad? ==> Mid(s.c0, s.c1) == a && Mid(s.c3, s.c2) == b
    ensures s.Quad? ==> s.c3.x - s.c0.x == b.x - a.x && s.c3.y - s.c0.y == b.y - a.y
    ensures s.Quad? ==> s.c2.x - s.c1.x == b.x - a.x && s.c2.y - s.c1.y == b.y - a.y
  {
    if thickness <= 1.0 then ThinLine(a, b)
    else if len == 0.0 then NoStroke
    else
      var ux := (b.x - a.x) / len;
      var uy := (b.y - a.y) / len;
      var vx := -uy * (thickness / 2.0);
      var vy := ux * (thickness / 2.0);
      Quad(Point(a.x + vx, a.y + vy), Point(a.x - vx, a.y - vy),
           Point(b.x - vx, b.y - vy), Point(b.x + vx, b.y + vy))
  }

  /**
   * The quad is the segment widened to a rectangle of the requested
   * thickness: its short sides are perpendicular to the segment and exactly
   * `thickness` long.
   */
  lemma {:induction false} ThickLineIsRectangle(a: Point, b: Point, thickness: real, len: real)
    requires IsLength(len, a, b) && thickness > 1.0 && len != 0.0
    ensures var s := ThickLine(a, b, thickness, len);
      s.Quad? &&
      (s.c0.x - s.c1.x) * (b.x - a.x) + (s.c0.y - s.c1.y) * (b.y - a.y) == 0.0 &&
      (s.c0.x - s.c1.x) * (s.c0.x - s.c1.x) + (s.c0.y - s.c1.y) * (s.c0.y - s.c1.y) == thickness * thickness
  {
    var s := ThickLine(a, b, thickness, len);
    var dx, dy := b.x - a.x, b.y - a.y;
    var ux, uy := dx / len, dy / len;
    var t := thickness;
    assert s.c0.x - s.c1.x == -uy * t;
    assert s.c0.y - s.c1.y == ux * t;
    UnitDirection(dx, dy, len);
    assert (-uy * t) * dx + (ux * t) * dy == t * (ux * dy - uy * dx);
    assert ux * dy == uy * dx by {
      assert ux * dy == (dx * dy) / len;
      assert uy * dx == (dy * dx) / len;
    }
    assert (-uy * t) * (-uy * t) + (ux * t) * (ux * t) == (t * t) * (ux * ux + uy * uy);
  }

  lemma DivTimes(a: real, d: real)
    requires d != 0.0
    ensures (a / d) * d == a
  {
  }

  lemma SquareTimes(u: real, l: real, d: real)
    requires u * l == d
    ensures (u * u) * (l * l) == d * d
  {
  }

  lemma MulZero(a: real, b: real)
    requires b > 0.0 && a * b == 0.0
    ensures a == 0.0
  {
  }

  /** `(dx / len, dy / len)` is a unit vector. */
  lemma {:induction false} UnitDirection(dx: real, dy: real, len: real)
    requires len > 0.0 && len * len == dx * dx + dy * dy
    ensures (dx / len) * (dx / len) + (dy / len) * (dy / len) == 1.0
  {
    var ux, uy := dx / len, dy / len;
    DivTimes(dx, len);
    DivTimes(dy, len);
    SquareTimes(ux, len, dx);
    SquareTimes(uy, len, dy);
    var k := ux * ux + uy * uy - 1.0;
    assert (k * len) * len == 0.0;
    MulZero(k * len, len);
    MulZero(k, len);
  }

  /** A stretch of length `l` along a unit direction has Euclidean length `l`. */
  lemma ScaledUnit(ux: real, uy: real, l: real, x: real, y: real)
    requires ux * ux + uy * uy == 1.0 && x == ux * l && y == uy * l
    ensures l * l == x * x + y * y
  {
    assert x * x == (ux * ux) * (l * l);
    assert y * y == (uy * uy) * (l * l);
    assert (ux * ux + uy * uy) * (l * l) == (ux * ux) * (l * l) + (uy * uy) * (l * l);
  }

  /** Dash `d` of the segment from `a` to `b`, widened to `thickness`. */
  function DashStroke(a: Point, b: Point, dist: real, thickness: real, d: Interval): (s: Stroke)
    requires IsLength(dist, a, b) && dist != 0.0 && d.start <= d.end
    ensures thickness <= 1.0 <==> s == ThinLine(AlongSegment(a, b, dist, d.start), AlongSegment(a, b, dist, d.end))
    ensures s == NoStroke <==> thickness > 1.0 && d.start == d.end
  {
    var p, q := AlongSegment(a, b, dist, d.start), AlongSegment(a, b, dist, d.end);
    var ux, uy := (b.x - a.x) / dist, (b.y - a.y) / dist;
    UnitDirection(b.x - a.x, b.y - a.y, dist);
    ScaledUnit(ux, uy, d.end - d.start, q.x - p.x, q.y - p.y);
    ThickLine(p, q, thickness, d.end - d.start)
  }

  /**
   * `DrawDashedThickLine`: nothing for a segment of zero length; otherwise
   * one thick stroke per dash of the style's pattern, dash `k` running from
   * `k * step` to `min(k * step + dash, dist)` along the segment.
   */
  method DashedThickLine(a: Point, b: Point, thickness: real, style: LineStyle, dist: real)
    returns (strokes: seq<Stroke>)
    requires IsLength(dist, a, b)
    ensures dist == 0.0 ==> strokes == []
    ensures dist != 0.0 ==> (|strokes| > 0 &&
      forall k :: 0 <= k < |strokes| ==>
        DashAt(k, dist, ThickPattern(style)).start < dist &&
        strokes[k] == DashStroke(a, b, dist, thickness, DashAt(k, dist, ThickPattern(style))))
    ensures dist != 0.0 ==> DashAt(|strokes|, dist, ThickPattern(style)).start >= dist
  {
    if dist == 0.0 {
      return [];
    }
    var p := ThickPattern(style);
    var dashes := DashIntervals(dist, p);
    NoDashesIffEmpty(dist, p, dashes);
    forall k | 0 <= k < |dashes| ensures dashes[k].start <= dashes[k].end {
      DashInSegment(k, dist, p);
    }
    strokes := seq(|dashes|, k requires 0 <= k < |dashes| => DashStroke(a, b, dist, thickness, dashes[k]));
  }

  /**
   * `SDL_RenderLineDashed`, the one-pixel variant: a solid style draws the
   * whole segment; otherwise one thin line per dash of the style's pattern.
   */
  method ThinDashedLine(a: Point, b: Point, style: LineStyle, dist: real) returns (strokes: seq<Stroke>)
    requires IsLength(dist, a, b)
    ensures style == Solid ==> strokes == [ThinLine(a, b)]
    ensures style != Solid && dist == 0.0 ==> strokes == []
    ensures style != Solid && dist != 0.0 ==> (
      (forall k :: 0 <= k < |strokes| ==>
        var d := DashAt(k, dist, ThinPattern(style));
        d.start < dist &&
        strokes[k] == ThinLine(AlongSegment(a, b, dist, d.start), AlongSegment(a, b, dist, d.end))) &&
      DashAt(|strokes|, dist, ThinPattern(style)).start >= dist)
  {
    if style == Solid {
      return [ThinLine(a, b)];
    }
    var dashes := DashIntervals(dist, ThinPattern(style));
    if dist == 0.0 {
      NoDashesIffEmpty(dist, ThinPattern(style), dashes);
      return [];
    }
    strokes := seq(|dashes|, k requires 0 <= k < |dashes| =>
      ThinLine(AlongSegment(a, b, dist, dashes[k].start), AlongSegment(a, b, dist, dashes[k].end)));
  }
}
