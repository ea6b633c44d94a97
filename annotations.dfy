/**
 * Annotation geometry: the legend box in the top-right corner of an Axes
 * and the anchoring of text labels by `draw_text`.
 */
module Annotations {
  import opened Types
  import Strokes

  const LegendPadding: real := 10.0
  const LegendRowHeight: real := 20.0
  const LegendWidth: real := 120.0

  /** The style proxy drawn in front of a legend label. */
  datatype Swatch = LineSwatch(from: Point, to: Point) | DotSwatch(dot: Rect)

  /** One legend row: its vertical centre, its proxy and its label text. */
  datatype LegendEntry = LegendEntry(centreY: real, swatch: Swatch, labelAnchor: Point, text: string)

  datatype LegendLayout = LegendLayout(box: Rect, entries: seq<LegendEntry>)

  /** The legend box: 120 wide, one 20-pixel row per series plus 10 pixels of padding above and below. */
  function LegendBox(rect: Rect, n: int): Rect {
    Rect((rect.x + rect.w) - LegendWidth - LegendPadding, rect.y + LegendPadding,
         LegendWidth, n as real * LegendRowHeight + LegendPadding * 2.0)
  }

  /** The row of series `s`, `i`-th in the legend box `box`. */
  function Entry(box: Rect, i: int, s: Series): LegendEntry {
    var y := box.y + LegendPadding + i as real * LegendRowHeight + LegendRowHeight / 2.0;
    var swatch :=
      if s.kind == PlotLine then LineSwatch(Point(box.x + 5.0, y), Point(box.x + 25.0, y))
      else DotSwatch(Rect(box.x + 12.0, y - 3.0, 6.0, 6.0));
    LegendEntry(y, swatch, Point(box.x + 35.0, y), s.name)
  }

  /**
   * `render_legend`: nothing when the legend is off or there are no series;
   * otherwise the box and one row per series, in order.
   */
  function Legend(rect: Rect, showLegend: bool, lines: seq<Series>): (r: Option<LegendLayout>)
    ensures r.None? <==> !showLegend || |lines| == 0
    ensures r.Some? ==> r.value.box.x + r.value.box.w == rect.x + rect.w - LegendPadding
    ensures r.Some? ==> r.value.box.y == rect.y + LegendPadding
    ensures r.Some? ==> r.value.box.w == 120.0 && r.value.box.h == 20.0 * |lines| as real + 20.0
    ensures r.Some? ==> |r.value.entries| == |lines|
    ensures r.Some? ==> forall i :: 0 <= i < |lines| ==>
      r.value.entries[i].text == lines[i].name &&
      r.value.entries[i].centreY == r.value.box.y + 20.0 + 20.0 * i as real &&
      r.value.entries[i].labelAnchor == Point(r.value.box.x + 35.0, r.value.entries[i].centreY) &&
      (r.value.entries[i].swatch.LineSwatch? <==> lines[i].kind == PlotLine)
  {
    if !showLegend || |lines| == 0 then None
    else
      var box := LegendBox(rect, |lines|);
      Some(LegendLayout(box, seq(|lines|, i requires 0 <= i < |lines| => Entry(box, i, lines[i]))))
  }

  /**
   * Every row lies inside the legend box: the band of row `i` is
   * `[box.y + 10 + 20i, box.y + 30 + 20i]`, and consecutive rows are 20 apart.
   */
  lemma {:induction false} RowsInsideBox(rect: Rect, lines: seq<Series>, i: int)
    requires 0 <= i < |lines|
    ensures var l := Legend(rect, true, lines).value;
      l.box.y + LegendPadding <= l.entries[i].centreY - 10.0 &&
      l.entries[i].centreY + 10.0 <= l.box.y + l.box.h - LegendPadding &&
      (i + 1 < |lines| ==> l.entries[i + 1].centreY - l.entries[i].centreY == 20.0)
  {
    var l := Legend(rect, true, lines).value;
    var n := |lines|;
    assert l.entries[i].centreY == l.box.y + 20.0 + 20.0 * i as real;
    assert (i + 1) as real <= n as real;
  }

  /**
   * The box stays within the Axes rectangle when the rectangle is at least
   * 130 pixels wide and has room for all rows.
   */
  lemma BoxInsideAxes(rect: Rect, lines: seq<Series>)
    requires |lines| > 0 && rect.w >= 130.0 && rect.h >= 20.0 * |lines| as real + 30.0
    ensures var b := Legend(rect, true, lines).value.box;
      rect.x <= b.x && b.x + b.w < rect.x + rect.w && rect.y < b.y && b.y + b.h <= rect.y + rect.h
  {
  }

  /**
   * The proxy of a line series is the legend's two-pixel thick line from
   * `box.x + 5` to `box.x + 25`: a 20 x 2 rectangle centred on its row.
   */
  lemma LineSwatchStroke(box: Rect, i: int, s: Series)
    requires s.kind == PlotLine
    ensures var e := Entry(box, i, s);
      e.swatch.LineSwatch? &&
      Strokes.ThickLine(e.swatch.from, e.swatch.to, 2.0, 20.0) ==
        Strokes.Quad(Point(box.x + 5.0, e.centreY + 1.0), Point(box.x + 5.0, e.centreY - 1.0),
                     Point(box.x + 25.0, e.centreY - 1.0), Point(box.x + 25.0, e.centreY + 1.0))
  {
  }

  /** The dot proxy of a scatter series is a 6 x 6 square centred on the row, 15 pixels into the box. */
  lemma DotSwatchCentred(box: Rect, i: int, s: Series)
    requires s.kind == PlotScatter
    ensures var e := Entry(box, i, s);
      e.swatch.DotSwatch? &&
      e.swatch.dot.x + e.swatch.dot.w / 2.0 == box.x + 15.0 &&
      e.swatch.dot.y + e.swatch.dot.h / 2.0 == e.centreY
  {
  }

  /** What the text renderer returns: the rendered text's size in pixels, or nothing on failure. */
  datatype Surface = Surface(w: int, h: int)

  /**
   * `draw_text`: where the text texture is drawn, if at all. Nothing is
   * drawn without text or font, or when rendering the surface or creating
   * the texture fails. The text is vertically centred on `y`; `x` is its
   * right edge when right-aligned and its horizontal centre otherwise.
   */
  function TextPlacement(text: Option<string>, fontLoaded: bool, x: real, y: real, rightAlign: bool,
                         surface: Option<Surface>, textureCreated: bool): (r: Option<Rect>)
    ensures r.Some? <==> text.Some? && fontLoaded && surface.Some? && textureCreated
    ensures r.Some? ==> r.value.w == surface.value.w as real && r.value.h == surface.value.h as real
    ensures r.Some? ==> r.value.y + r.value.h / 2.0 == y
    ensures r.Some? && rightAlign ==> r.value.x + r.value.w == x
    ensures r.Some? && !rightAlign ==> r.value.x + r.value.w / 2.0 == x
  {
    if text.None? || !fontLoaded then None
    else if surface.None? then None
    else if !textureCreated then None
    else
      var w, h := surface.value.w as real, surface.value.h as real;
      Some(Rect(if rightAlign then x - w else x - w / 2.0, y - h / 2.0, w, h))
  }
}
