/**
 * The Figure/Axes object model of the plotting library: a Figure owns a
 * fixed number of Axes laid out in a grid; each Axes owns its series, its
 * data limits, its labels and, for 3D plots, its camera.
 *
 * Data arrays are passed as sequences together with the count the caller
 * gives; reading past the end of a caller's array is excluded by
 * precondition. A `NULL` string pointer is `None`.
 */
module Graphs {
  import opened Types
  import opened AutoScale
  import Layout
  import Projection

  /** The camera defaults that `set_projection` installs for 3D. */
  const DefaultAzimuth: real := 300.0
  const DefaultElevation: real := 30.0

  class Axes {
    var rect: Rect
    var projection: ProjectionType
    var lines: seq<Series>
    var title: Option<string>
    var xLabel: Option<string>
    var yLabel: Option<string>
    var zLabel: Option<string>
    var xMin: real
    var xMax: real
    var yMin: real
    var yMax: real
    var zMin: real
    var zMax: real
    var showGrid: bool
    var showLegend: bool
    var phi: real
    var theta: real
    var zoom: real

    /**
     * The state `subplots` gives every Axes: no series, the Figure's title,
     * no axis labels, grid and legend off, 2D, the empty-data sentinel limits
     * (min 1e38, max -1e38) and a neutral camera. The rectangle is left to
     * the layout.
     */
    predicate Initial(t: Option<string>)
      reads this`lines, this`title, this`xLabel, this`yLabel, this`zLabel, this`showGrid,
        this`showLegend, this`projection, this`xMin, this`xMax, this`yMin, this`yMax,
        this`zMin, this`zMax, this`phi, this`theta, this`zoom
    {
      lines == [] && title == t && xLabel == None && yLabel == None && zLabel == None &&
      !showGrid && !showLegend && projection == Projection2D &&
      xMin == Huge && xMax == -Huge && yMin == Huge && yMax == -Huge &&
      zMin == Huge && zMax == -Huge &&
      phi == 0.0 && theta == 0.0 && zoom == 1.0
    }

    constructor (t: Option<string>)
      ensures Initial(t)
    {
      rect := Rect(0.0, 0.0, 0.0, 0.0);
      lines := [];
      title := t;
      xLabel, yLabel, zLabel := None, None, None;
      showGrid, showLegend := false, false;
      projection := Projection2D;
      xMin, xMax := Huge, -Huge;
      yMin, yMax := Huge, -Huge;
      phi, theta, zoom := 0.0, 0.0, 1.0;
      zMin, zMax := Huge, -Huge;
    }

    /** The most recently added series. */
    function Last(): Series
      reads this
      requires |lines| > 0
    {
      lines[|lines| - 1]
    }

    /**
     * `plot`: appends one solid line series of thickness 2 labelled
     * "Series" and folds the first `count` samples into the x and y limits.
     * The z samples of the new series are not set by the library and are
     * left unconstrained.
     */
    method Plot(x: seq<real>, y: seq<real>, count: int, color: Color)
      requires count <= |x| && count <= |y|
      modifies this`lines, this`xMin, this`xMax, this`yMin, this`yMax
      ensures |lines| == |old(lines)| + 1 && lines[..|old(lines)|] == old(lines)
      ensures Last() == NewLine(x, y, count, color).(z := Last().z)
      ensures xMin == LowerFold(old(xMin), Samples(x, count)) && xMax == UpperFold(old(xMax), Samples(x, count))
      ensures yMin == LowerFold(old(yMin), Samples(y, count)) && yMax == UpperFold(old(yMax), Samples(y, count))
      ensures xMin <= old(xMin) && xMax >= old(xMax) && yMin <= old(yMin) && yMax >= old(yMax)
      ensures forall i :: 0 <= i < count ==> xMin <= x[i] <= xMax && yMin <= y[i] <= yMax
    {
      var z: seq<real> :| true;
      lines := lines + [NewLine(x, y, count, color).(z := z)];
      var i := 0;
      while i < count
        invariant 0 <= i <= (if count > 0 then count else 0)
        invariant lines == old(lines) + [NewLine(x, y, count, color).(z := z)]
        invariant xMin == LowerFold(old(xMin), x[..i]) && xMax == UpperFold(old(xMax), x[..i])
        invariant yMin == LowerFold(old(yMin), y[..i]) && yMax == UpperFold(old(yMax), y[..i])
      {
        assert x[..i + 1][..i] == x[..i] && y[..i + 1][..i] == y[..i];
        if x[i] < xMin { xMin := x[i]; }
        if x[i] > xMax { xMax := x[i]; }
        if y[i] < yMin { yMin := y[i]; }
        if y[i] > yMax { yMax := y[i]; }
        i := i + 1;
      }
      assert x[..i] == Samples(x, count) && y[..i] == Samples(y, count);
      LowerFoldBelow(old(xMin), Samples(x, count));
      UpperFoldAbove(old(xMax), Samples(x, count));
      LowerFoldBelow(old(yMin), Samples(y, count));
      UpperFoldAbove(old(yMax), Samples(y, count));
    }

    /**
     * `scatter`: exactly what `plot` does, after which the new series is
     * switched to markers of the given size.
     */
    method Scatter(x: seq<real>, y: seq<real>, count: int, color: Color, size: real)
      requires count <= |x| && count <= |y|
      modifies this`lines, this`xMin, this`xMax, this`yMin, this`yMax
      ensures |lines| == |old(lines)| + 1 && lines[..|old(lines)|] == old(lines)
      ensures Last() == NewLine(x, y, count, color).(z := Last().z, kind := PlotScatter, markerSize := size)
      ensures xMin == LowerFold(old(xMin), Samples(x, count)) && xMax == UpperFold(old(xMax), Samples(x, count))
      ensures yMin == LowerFold(old(yMin), Samples(y, count)) && yMax == UpperFold(old(yMax), Samples(y, count))
      ensures forall i :: 0 <= i < count ==> xMin <= x[i] <= xMax && yMin <= y[i] <= yMax
    {
      Plot(x, y, count, color);
      var s := lines[|lines| - 1];
      lines := lines[..|lines| - 1] + [s.(kind := PlotScatter, markerSize := size)];
    }

    /** The inputs `plot3D` accepts: all three arrays given and a positive count. */
    static predicate Accepted3D(x: Option<seq<real>>, y: Option<seq<real>>, z: Option<seq<real>>, count: int) {
      x.Some? && y.Some? && z.Some? && count > 0
    }

    /**
     * `set_projection`: switches the projection; switching to 3D installs
     * the default camera (azimuth 300, elevation 30, zoom 1), z limits
     * [-1, 1] and the default axis labels.
     */
    method SetProjection(proj: ProjectionType)
      modifies this`projection, this`phi, this`theta, this`zoom, this`zMin, this`zMax,
        this`xLabel, this`yLabel, this`zLabel
      ensures projection == proj
      ensures proj == Projection3D ==>
        phi == DefaultAzimuth && theta == DefaultElevation && zoom == 1.0 &&
        zMin == -1.0 && zMax == 1.0 &&
        xLabel == Some("X-Axis") && yLabel == Some("Y-Axis") && zLabel == Some("Z-Axis")
      ensures proj == Projection2D ==>
        phi == old(phi) && theta == old(theta) && zoom == old(zoom) && zMin == old(zMin) && zMax == old(zMax) &&
        xLabel == old(xLabel) && yLabel == old(yLabel) && zLabel == old(zLabel)
    {
      projection := proj;
      if proj == Projection3D {
        phi := DefaultAzimuth;
        theta := DefaultElevation;
        zoom := 1.0;
        zMin := -1.0;
        zMax := 1.0;
        xLabel := Some("X-Axis");
        yLabel := Some("Y-Axis");
        zLabel := Some("Z-Axis");
      }
    }

    /**
     * `plot3D`: ignored unless all three arrays are given and `count > 0`;
     * otherwise the Axes is switched to 3D (with the camera defaults when it
     * was not 3D yet), a solid line series is appended, the samples are
     * folded into all three limits, and an empty range is widened by one so
     * that the projection never divides by zero. The marker size of the new
     * series is not set by the library and is left unconstrained.
     */
    method Plot3D(x: Option<seq<real>>, y: Option<seq<real>>, z: Option<seq<real>>, count: int, color: Color)
      requires Accepted3D(x, y, z, count) ==>
        count <= |x.value| && count <= |y.value| && count <= |z.value|
      modifies this`projection, this`phi, this`theta, this`zoom, this`xLabel, this`yLabel, this`zLabel,
        this`lines, this`xMin, this`xMax, this`yMin, this`yMax, this`zMin, this`zMax
      ensures !Accepted3D(x, y, z, count) ==> unchanged(this)
      ensures Accepted3D(x, y, z, count) ==> projection == Projection3D
      ensures Accepted3D(x, y, z, count) && old(projection) == Projection3D ==>
        phi == old(phi) && theta == old(theta) && zoom == old(zoom) &&
        xLabel == old(xLabel) && yLabel == old(yLabel) && zLabel == old(zLabel)
      ensures Accepted3D(x, y, z, count) && old(projection) != Projection3D ==>
        phi == DefaultAzimuth && theta == DefaultElevation && zoom == 1.0 &&
        xLabel == Some("X-Axis") && yLabel == Some("Y-Axis") && zLabel == Some("Z-Axis")
      ensures Accepted3D(x, y, z, count) ==>
        |lines| == |old(lines)| + 1 && lines[..|old(lines)|] == old(lines) &&
        Last() == Series(x.value, y.value, z.value, count, color, PlotLine, Solid, Last().markerSize, 2.0, DefaultLabel)
      ensures Accepted3D(x, y, z, count) ==>
        var xs, ys, zs := Samples(x.value, count), Samples(y.value, count), Samples(z.value, count);
        var z0, z1 := if old(projection) == Projection3D then old(zMin) else -1.0,
                      if old(projection) == Projection3D then old(zMax) else 1.0;
        xMin == LowerFold(old(xMin), xs) && xMax == Widened(xMin, UpperFold(old(xMax), xs)) &&
        yMin == LowerFold(old(yMin), ys) && yMax == Widened(yMin, UpperFold(old(yMax), ys)) &&
        zMin == LowerFold(z0, zs) && zMax == Widened(zMin, UpperFold(z1, zs))
      ensures Accepted3D(x, y, z, count) ==> xMin < xMax && yMin < yMax && zMin < zMax
      ensures Accepted3D(x, y, z, count) ==> forall i :: 0 <= i < count ==>
        xMin <= x.value[i] <= xMax && yMin <= y.value[i] <= yMax && zMin <= z.value[i] <= zMax
    {
      if x.None? || y.None? || z.None? || count <= 0 {
        return;
      }
      var xs, ys, zs := x.value, y.value, z.value;
      if projection != Projection3D {
        SetProjection(Projection3D);
      }
      var size: real :| true;
      lines := lines + [Series(xs, ys, zs, count, color, PlotLine, Solid, size, 2.0, DefaultLabel)];
      AutoScale3D(xs, ys, zs, count);
    }

    /**
     * The auto-scaling tail of `plot3D`: fold the samples into the limits,
     * then widen every empty range by one unit.
     */
    method AutoScale3D(xs: seq<real>, ys: seq<real>, zs: seq<real>, count: int)
      requires 0 < count <= |xs| && count <= |ys| && count <= |zs|
      modifies this`xMin, this`xMax, this`yMin, this`yMax, this`zMin, this`zMax
      ensures xMin == LowerFold(old(xMin), Samples(xs, count)) && xMax == Widened(xMin, UpperFold(old(xMax), Samples(xs, count)))
      ensures yMin == LowerFold(old(yMin), Samples(ys, count)) && yMax == Widened(yMin, UpperFold(old(yMax), Samples(ys, count)))
      ensures zMin == LowerFold(old(zMin), Samples(zs, count)) && zMax == Widened(zMin, UpperFold(old(zMax), Samples(zs, count)))
      ensures xMin < xMax && yMin < yMax && zMin < zMax
      ensures forall i :: 0 <= i < count ==> xMin <= xs[i] <= xMax && yMin <= ys[i] <= yMax && zMin <= zs[i] <= zMax
    {
      FoldSamples3D(xs, ys, zs, count);
      WidenedCovers(old(xMin), old(xMax), xs, count);
      WidenedCovers(old(yMin), old(yMax), ys, count);
      WidenedCovers(old(zMin), old(zMax), zs, count);
      if xMax == xMin { xMax := xMax + 1.0; }
      if yMax == yMin { yMax := yMax + 1.0; }
      if zMax == zMin { zMax := zMax + 1.0; }
    }

    /** The auto-scaling loop of `plot3D`: folds the first `count` samples into all six limits, in order. */
    method FoldSamples3D(xs: seq<real>, ys: seq<real>, zs: seq<real>, count: int)
      requires 0 < count <= |xs| && count <= |ys| && count <= |zs|
      modifies this`xMin, this`xMax, this`yMin, this`yMax, this`zMin, this`zMax
      ensures xMin == LowerFold(old(xMin), Samples(xs, count)) && xMax == UpperFold(old(xMax), Samples(xs, count))
      ensures yMin == LowerFold(old(yMin), Samples(ys, count)) && yMax == UpperFold(old(yMax), Samples(ys, count))
      ensures zMin == LowerFold(old(zMin), Samples(zs, count)) && zMax == UpperFold(old(zMax), Samples(zs, count))
    {
      var i := 0;
      while i < count
        invariant 0 <= i <= count
        invariant xMin == LowerFold(old(xMin), xs[..i]) && xMax == UpperFold(old(xMax), xs[..i])
        invariant yMin == LowerFold(old(yMin), ys[..i]) && yMax == UpperFold(old(yMax), ys[..i])
        invariant zMin == LowerFold(old(zMin), zs[..i]) && zMax == UpperFold(old(zMax), zs[..i])
      {
        assert xs[..i + 1][..i] == xs[..i] && ys[..i + 1][..i] == ys[..i] && zs[..i + 1][..i] == zs[..i];
        if xs[i] < xMin { xMin := xs[i]; }
        if xs[i] > xMax { xMax := xs[i]; }
        if ys[i] < yMin { yMin := ys[i]; }
        if ys[i] > yMax { yMax := ys[i]; }
        if zs[i] < zMin { zMin := zs[i]; }
        if zs[i] > zMax { zMax := zs[i]; }
        i := i + 1;
      }
      assert xs[..i] == Samples(xs, count) && ys[..i] == Samples(ys, count) && zs[..i] == Samples(zs, count);
    }

    /** `set_grid`. */
    method SetGrid(enabled: bool)
      modifies this`showGrid
      ensures showGrid == enabled
    {
      showGrid := enabled;
    }

    /** `set_legend`. */
    method SetLegend(enabled: bool)
      modifies this`showLegend
      ensures showLegend == enabled
    {
      showLegend := enabled;
    }

    /**
     * `set_linestyle`: restyles series `idx` if there is one and changes
     * nothing otherwise. A negative index is not guarded by the library and
     * is excluded.
     */
    method SetLineStyle(idx: int, style: LineStyle)
      requires idx >= 0
      modifies this`lines
      ensures idx < |old(lines)| ==> lines == old(lines)[idx := old(lines)[idx].(style := style)]
      ensures idx >= |old(lines)| ==> lines == old(lines)
    {
      if idx < |lines| {
        lines := lines[idx := lines[idx].(style := style)];
      }
    }

    /**
     * `set_label`: renames series `idx` (keeping at most 31 characters) if
     * there is one and changes nothing otherwise.
     */
    method SetLabel(idx: int, name: string)
      requires idx >= 0
      modifies this`lines
      ensures idx < |old(lines)| ==> lines == old(lines)[idx := old(lines)[idx].(name := Truncated(name))]
      ensures idx >= |old(lines)| ==> lines == old(lines)
    {
      if idx < |lines| {
        lines := lines[idx := lines[idx].(name := Truncated(name))];
      }
    }

    /** `set_xlabel`. */
    method SetXLabel(text: Option<string>)
      modifies this`xLabel
      ensures xLabel == text
    {
      xLabel := text;
    }

    /** `set_ylabel`. */
    method SetYLabel(text: Option<string>)
      modifies this`yLabel
      ensures yLabel == text
    {
      yLabel := text;
    }

    /** `set_title`. */
    method SetTitle(t: Option<string>)
      modifies this`title
      ensures title == t
    {
      title := t;
    }
  }

  /** After folding a non-empty batch, the limits enclose every sample of it, so the lower is at most the upper. */
  lemma FoldedRangeOrdered(lo: real, hi: real, s: seq<real>)
    requires |s| > 0
    ensures forall i :: 0 <= i < |s| ==> LowerFold(lo, s) <= s[i] <= UpperFold(hi, s)
    ensures LowerFold(lo, s) <= UpperFold(hi, s)
  {
    LowerFoldBelow(lo, s);
    UpperFoldAbove(hi, s);
  }

  /**
   * The limits `plot3D` ends with for one coordinate: after folding and
   * widening, the range is non-empty and encloses every sample.
   */
  lemma WidenedCovers(lo: real, hi: real, s: seq<real>, count: int)
    requires 0 < count <= |s|
    ensures var a := LowerFold(lo, Samples(s, count));
      var b := Widened(a, UpperFold(hi, Samples(s, count)));
      a < b && forall i :: 0 <= i < count ==> a <= s[i] <= b
  {
    var t := Samples(s, count);
    FoldedRangeOrdered(lo, hi, t);
    assert forall i :: 0 <= i < count ==> t[i] == s[i];
  }

  class Figure {
    const axes: seq<Axes>

    /** Every Axes of the Figure is a separate object. */
    predicate Valid() {
      forall i, j :: 0 <= i < j < |axes| ==> axes[i] != axes[j]
    }

    /**
     * `subplots` (its data part): `numAxes` fresh Axes in the initial
     * state, all titled with the Figure's title, laid out for the initial
     * window size. A negative count is excluded.
     */
    constructor (title: Option<string>, width: int, height: int, numAxes: int)
      requires numAxes >= 0
      ensures Valid() && |axes| == numAxes
      ensures forall k :: 0 <= k < numAxes ==> fresh(axes[k]) && axes[k].Initial(title)
      ensures forall k :: 0 <= k < numAxes ==>
        axes[k].rect == Layout.AxesRect(numAxes, k, width as real, height as real)
    {
      var built: seq<Axes> := [];
      var i := 0;
      while i < numAxes
        invariant 0 <= i <= numAxes && |built| == i
        invariant forall k :: 0 <= k < i ==> fresh(built[k]) && built[k].Initial(title)
        invariant forall k, l :: 0 <= k < l < i ==> built[k] != built[l]
      {
        var a := new Axes(title);
        built := built + [a];
        i := i + 1;
      }
      axes := built;
      new;
      UpdateLayout(width, height);
    }

    /**
     * `update_layout`: gives Axes `i` of `n` the rectangle of its grid cell
     * for a `windowW` x `windowH` window; nothing but the rectangles changes.
     */
    method UpdateLayout(windowW: int, windowH: int)
      requires Valid()
      modifies axes`rect
      ensures forall k :: 0 <= k < |axes| ==>
        axes[k].rect == Layout.AxesRect(|axes|, k, windowW as real, windowH as real)
    {
      if |axes| <= 0 {
        return;
      }
      var n := |axes|;
      var i := 0;
      while i < n
        invariant 0 <= i <= n
        invariant forall k :: 0 <= k < i ==> axes[k].rect == Layout.AxesRect(n, k, windowW as real, windowH as real)
      {
        axes[i].rect := Layout.AxesRect(n, i, windowW as real, windowH as real);
        i := i + 1;
      }
    }

    /** The grid flag of every Axes, in order. */
    function GridFlags(): seq<bool>
      reads axes
    {
      seq(|axes|, k reads axes requires 0 <= k < |axes| => axes[k].showGrid)
    }

    /** The grid toggle of the toolbar: flips the grid of every Axes and changes nothing else. */
    method ToggleGrids()
      requires Valid()
      modifies axes`showGrid
      ensures forall k :: 0 <= k < |axes| ==> axes[k].showGrid == !old(axes[k].showGrid)
      ensures GridFlags() == Negated(old(GridFlags()))
    {
      var i := 0;
      while i < |axes|
        invariant 0 <= i <= |axes|
        invariant forall k :: 0 <= k < i ==> axes[k].showGrid == !old(axes[k].showGrid)
        invariant forall k :: i <= k < |axes| ==> axes[k].showGrid == old(axes[k].showGrid)
      {
        axes[i].showGrid := !axes[i].showGrid;
        i := i + 1;
      }
    }

    /**
     * The camera drag of `show`: with the left button held, every 3D Axes
     * turns by half a degree per pixel of mouse motion, its elevation
     * clamped to [-89, 89]; 2D Axes and releases change nothing.
     */
    method DragCamera(xrel: real, yrel: real, leftHeld: bool)
      requires Valid()
      modifies axes`phi, axes`theta
      ensures forall k :: 0 <= k < |axes| ==>
        if leftHeld && axes[k].projection == Projection3D then
          (axes[k].phi, axes[k].theta) == Projection.Dragged(old(axes[k].phi), old(axes[k].theta), xrel, yrel)
        else
          axes[k].phi == old(axes[k].phi) && axes[k].theta == old(axes[k].theta)
    {
      if !leftHeld {
        return;
      }
      var i := 0;
      while i < |axes|
        invariant 0 <= i <= |axes|
        invariant forall k :: 0 <= k < i ==>
          if axes[k].projection == Projection3D then
            (axes[k].phi, axes[k].theta) == Projection.Dragged(old(axes[k].phi), old(axes[k].theta), xrel, yrel)
          else
            axes[k].phi == old(axes[k].phi) && axes[k].theta == old(axes[k].theta)
        invariant forall k :: i <= k < |axes| ==> axes[k].phi == old(axes[k].phi) && axes[k].theta == old(axes[k].theta)
      {
        var ax := axes[i];
        if ax.projection == Projection3D {
          ax.phi := ax.phi + xrel * Projection.Sensitivity;
          ax.theta := ax.theta - yrel * Projection.Sensitivity;
          if ax.theta > Projection.MaxElevation { ax.theta := Projection.MaxElevation; }
          if ax.theta < -Projection.MaxElevation { ax.theta := -Projection.MaxElevation; }
        }
        i := i + 1;
      }
    }
  }

  /** Every flag negated. */
  function Negated(flags: seq<bool>): seq<bool>
  {
    seq(|flags|, k requires 0 <= k < |flags| => !flags[k])
  }

  /** Toggling twice restores every flag. */
  lemma NegatedTwice(flags: seq<bool>)
    ensures Negated(Negated(flags)) == flags
  {
  }
}
