/**
 * The earlier single-Axes variant of the library: a Figure always holds
 * exactly one 2D Axes, first placed 80 pixels from the left and 60 from
 * the top, and re-placed by fixed window fractions on every resize. Its
 * plot, scatter, setters, legend, scaling and text anchoring coincide with
 * the multi-Axes library except that `plot` leaves the new series' style
 * (and z samples) unset; the shared arithmetic is reused from the Scaling,
 * Annotations and Layout modules.
 */
module LegacyGraphs {
  import opened Types
  import opened AutoScale
  import Layout
  import Scaling
  import Annotations

  class Axes {
    var rect: Rect
    var lines: seq<Series>
    var title: Option<string>
    var xLabel: Option<string>
    var yLabel: Option<string>
    var xMin: real
    var xMax: real
    var yMin: real
    var yMax: real
    var showGrid: bool
    var showLegend: bool

    /** No series, the given title, no axis labels, grid and legend off, and the empty-data sentinel limits. */
    predicate Initial(t: Option<string>)
      reads this`lines, this`title, this`xLabel, this`yLabel, this`showGrid, this`showLegend,
        this`xMin, this`xMax, this`yMin, this`yMax
    {
      lines == [] && title == t && xLabel == None && yLabel == None &&
      !showGrid && !showLegend &&
      xMin == Huge && xMax == -Huge && yMin == Huge && yMax == -Huge
    }

    constructor (t: Option<string>, r: Rect)
      ensures rect == r && Initial(t)
    {
      rect := r;
      lines := [];
      title := t;
      xLabel, yLabel := None, None;
      showGrid, showLegend := false, false;
      xMin, xMax := Huge, -Huge;
      yMin, yMax := Huge, -Huge;
    }

    /** The most recently added series. */
    function Last(): Series
      reads this
      requires |lines| > 0
    {
      lines[|lines| - 1]
    }

    /**
     * `plot`: appends one line series of thickness 2 labelled "Series" and
     * folds the first `count` samples into the limits. The style and the z
     * samples of the new series are not set and are left unconstrained.
     */
    method Plot(x: seq<real>, y: seq<real>, count: int, color: Color)
      requires count <= |x| && count <= |y|
      modifies this`lines, this`xMin, this`xMax, this`yMin, this`yMax
      ensures |lines| == |old(lines)| + 1 && lines[..|old(lines)|] == old(lines)
      ensures Last() == NewLine(x, y, count, color).(z := Last().z, style := Last().style)
      ensures xMin == LowerFold(old(xMin), Samples(x, count)) && xMax == UpperFold(old(xMax), Samples(x, count))
      ensures yMin == LowerFold(old(yMin), Samples(y, count)) && yMax == UpperFold(old(yMax), Samples(y, count))
      ensures xMin <= old(xMin) && xMax >= old(xMax) && yMin <= old(yMin) && yMax >= old(yMax)
      ensures forall i :: 0 <= i < count ==> xMin <= x[i] <= xMax && yMin <= y[i] <= yMax
    {
      var z: seq<real> :| true;
      var style: LineStyle :| true;
      var added := NewLine(x, y, count, color).(z := z, style := style);
      lines := lines + [added];
      var i := 0;
      while i < count
        invariant 0 <= i <= (if count > 0 then count else 0)
        invariant lines == old(lines) + [added]
        invariant xMin == LowerFold(old(xMin), x[..i]) && xMax == UpperFold(old(xMax), x[..i])
        invariant yMin == LowerFold(old(yMin), y[..i]) && yMax == UpperFold(old(yMax), y[..i])
      {
        assert x[..i + 1][..i] == x[..i] && y[..i + 1][..i] == y[..i];
        if x[i] < xMin { xMin := x[i]; }
        if x[i] > xMax { xMax := x[i]; }
        if y[i] < yMin { yMin := y[i]; }
        if y[i] > yMax { yMax := y[i]; }
        i := i + 1;
      }
      assert x[..i] == Samples(x, count) && y[..i] == Samples(y, count);
      LowerFoldBelow(old(xMin), Samples(x, count));
      UpperFoldAbove(old(xMax), Samples(x, count));
      LowerFoldBelow(old(yMin), Samples(y, count));
      UpperFoldAbove(old(yMax), Samples(y, count));
    }

    /** `scatter`: `plot`, then the new series becomes markers of the given size. */
    method Scatter(x: seq<real>, y: seq<real>, count: int, color: Color, size: real)
      requires count <= |x| && count <= |y|
      modifies this`lines, this`xMin, this`xMax, this`yMin, this`yMax
      ensures |lines| == |old(lines)| + 1 && lines[..|old(lines)|] == old(lines)
      ensures Last() == NewLine(x, y, count, color).(z := Last().z, style := Last().style,
        kind := PlotScatter, markerSize := size)
      ensures xMin == LowerFold(old(xMin), Samples(x, count)) && xMax == UpperFold(old(xMax), Samples(x, count))
      ensures yMin == LowerFold(old(yMin), Samples(y, count)) && yMax == UpperFold(old(yMax), Samples(y, count))
      ensures forall i :: 0 <= i < count ==> xMin <= x[i] <= xMax && yMin <= y[i] <= yMax
    {
      Plot(x, y, count, color);
      var s := lines[|lines| - 1];
      lines := lines[..|lines| - 1] + [s.(kind := PlotScatter, markerSize := size)];
    }

    /** `set_grid`. */
    method SetGrid(enabled: bool)
      modifies this`showGrid
      ensures showGrid == enabled
    {
      showGrid := enabled;
    }

    /** `set_legend`. */
    method SetLegend(enabled: bool)
      modifies this`showLegend
      ensures showLegend == enabled
    {
      showLegend := enabled;
    }

    /** `set_linestyle`: restyles series `idx` if there is one; a negative index is not guarded and is excluded. */
    method SetLineStyle(idx: int, style: LineStyle)
      requires idx >= 0
      modifies this`lines
      ensures idx < |old(lines)| ==> lines == old(lines)[idx := old(lines)[idx].(style := style)]
      ensures idx >= |old(lines)| ==> lines == old(lines)
    {
      if idx < |lines| {
        lines := lines[idx := lines[idx].(style := style)];
      }
    }

    /** `set_label`: renames series `idx`, keeping at most 31 characters, if there is one. */
    method SetLabel(idx: int, name: string)
      requires idx >= 0
      modifies this`lines
      ensures idx < |old(lines)| ==> lines == old(lines)[idx := old(lines)[idx].(name := Truncated(name))]
      ensures idx >= |old(lines)| ==> lines == old(lines)
    {
      if idx < |lines| {
        lines := lines[idx := lines[idx].(name := Truncated(name))];
      }
    }

    /** `set_xlabel`. */
    method SetXLabel(text: Option<string>)
      modifies this`xLabel
      ensures xLabel == text
    {
      xLabel := text;
    }

    /** `set_ylabel`. */
    method SetYLabel(text: Option<string>)
      modifies this`yLabel
      ensures yLabel == text
    {
      yLabel := text;
    }

    /** `set_title`. */
    method SetTitle(t: Option<string>)
      modifies this`title
      ensures title == t
    {
      title := t;
    }
  }

  /** The rectangle `subplots` gives the single Axes of a `width` x `height` window. */
  function InitialRect(width: int, height: int): (r: Rect)
    ensures width >= 120 && height >= 120 ==>
      r.x + r.w == width as real - 40.0 && r.y + r.h == height as real - 60.0 && r.w >= 0.0 && r.h >= 0.0
  {
    Rect(80.0, 60.0, (width - 120) as real, (height - 120) as real)
  }

  /**
   * The initial rectangle leaves 80/40 pixels left/right and 60/60 above and
   * below, so it lies strictly inside any window larger than 120 x 120.
   */
  lemma InitialRectInWindow(width: int, height: int)
    requires width > 120 && height > 120
    ensures Rect(0.0, 0.0, width as real, height as real).StrictlyContains(InitialRect(width, height))
  {
  }

  class Figure {
    const axes: seq<Axes>

    /**
     * `subplots`: one fresh Axes, titled with the Figure's title, in the
     * initial rectangle for the window size.
     */
    constructor (title: Option<string>, width: int, height: int)
      ensures |axes| == 1 && fresh(axes[0])
      ensures axes[0].Initial(title) && axes[0].rect == InitialRect(width, height)
    {
      var a := new Axes(title, InitialRect(width, height));
      axes := [a];
    }

    /** `update_layout`: every Axes gets the fixed-fraction rectangle of the window; nothing else changes. */
    method UpdateLayout(windowW: int, windowH: int)
      modifies axes`rect
      ensures forall k :: 0 <= k < |axes| ==> axes[k].rect == Layout.LegacyAxesRect(windowW as real, windowH as real)
    {
      var i := 0;
      while i < |axes|
        invariant 0 <= i <= |axes|
        invariant forall k :: 0 <= k < i ==> axes[k].rect == Layout.LegacyAxesRect(windowW as real, windowH as real)
      {
        axes[i].rect := Layout.LegacyAxesRect(windowW as real, windowH as real);
        i := i + 1;
      }
    }
  }

  /**
   * After a resize, every sample within the data limits is drawn inside
   * the window: the bottom 20% of the window stays free for the labels.
   */
  lemma {:induction false} SamplesDrawnInWindow(windowW: int, windowH: int, lo: real, hi: real, v: real, w: real)
    requires windowW >= 0 && windowH >= 0 && lo <= v <= hi && lo <= w <= hi
    ensures var r := Layout.LegacyAxesRect(windowW as real, windowH as real);
      0.0 <= Scaling.PixelX(r, lo, hi, v) <= windowW as real &&
      0.15 * windowH as real <= Scaling.PixelY(r, lo, hi, w) <= 0.8 * windowH as real
  {
    var r := Layout.LegacyAxesRect(windowW as real, windowH as real);
    Scaling.DataInsideRect(r, lo, hi, v);
    Scaling.DataInsideRect(r, lo, hi, w);
  }

  /**
   * The legend of the single Axes fits inside it after a resize when the
   * window is wide enough (0.7 W >= 130) and tall enough for every row.
   */
  lemma {:induction false} LegendFitsAfterResize(windowW: int, windowH: int, lines: seq<Series>)
    requires |lines| > 0 && 0.7 * windowW as real >= 130.0 && 0.65 * windowH as real >= 20.0 * |lines| as real + 30.0
    ensures var r := Layout.LegacyAxesRect(windowW as real, windowH as real);
      var b := Annotations.Legend(r, true, lines).value.box;
      r.x <= b.x && b.x + b.w < r.x + r.w && r.y < b.y && b.y + b.h <= r.y + r.h
  {
    Annotations.BoxInsideAxes(Layout.LegacyAxesRect(windowW as real, windowH as real), lines);
  }
}
