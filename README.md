# SDL_graphs in Dafny

A model of the computational core of SDL_graphs. SDL_graphs is a small
matplotlib-style plotting library for C on top of SDL3:

- A `Figure` owns a grid of `Axes`. Each Axes owns its data series, its data limits, its labels and, for 3D plots, a camera.
- A separate toolbar window edits the series of the first Axes: the active series, its style, colour and thickness, the grid of every Axes, and PNG export.
- The repository also keeps an earlier single-Axes version of the library (the root `sdl_graphs.c`).

Floating point is idealised as `real`. `sqrtf`, `cosf`, `sinf` and `atan2f` are not computed:

- a square root is a parameter `len` with `len * len == dx*dx + dy*dy`;
- a rotation angle is a pair `(c, s)` with `c*c + s*s == 1`;
- the direction of a segment is `(dx / len, dy / len)`.

Modules, one per file:

| file | module | models |
|---|---|---|
| types.dfy | Types | the shared value types: `Series`, `Rect`, colours, the style enumerations, label truncation |
| autoscale.dfy | AutoScale | the running min/max folds of `plot`, `scatter`, `plot3D` |
| layout.dfy | Layout | the grid layout of `update_layout`, and the legacy fixed-fraction layout |
| scaling.dfy | Scaling | the 2D data-to-pixel mapping, the ticks, the scatter marker |
| projection.dfy | Projection | `project_3d`, the cage edges of `draw_3d_box`, the camera drag |
| strokes.dfy | Strokes | `RenderThickLine`, `DrawDashedThickLine`, `SDL_RenderLineDashed` |
| annotations.dfy | Annotations | `render_legend` layout, `draw_text` anchoring |
| graphs.dfy | Graphs | the `Axes` and `Figure` classes of `src/sdl_graphs.c` |
| toolbar.dfy | Toolbar | `create_toolbar` and `handle_toolbar_events` |
| legacy.dfy | LegacyGraphs | `subplots`, `plot`, `scatter`, setters and `update_layout` of the root `sdl_graphs.c` |

The Axes, Figure and Toolbar are classes. Their methods change fields in
place and say which fields they may change (`modifies a`lines`, …).

## Model

| member | source | states |
|---|---|---|
| Types.Truncated | src/sdl_graphs.c:757-761 | a label keeps at most 31 characters: the name itself when it fits, otherwise its first 31 characters |
| AutoScale.LowerFoldBelow | src/sdl_graphs.c:96-102 | the folded minimum is at most the old minimum and at most every sample |
| AutoScale.UpperFoldAbove | src/sdl_graphs.c:96-102 | the folded maximum is at least the old maximum and at least every sample |
| AutoScale.LowerFoldAttained | src/sdl_graphs.c:96-102 | the folded minimum is the old bound or one of the samples |
| AutoScale.UpperFoldAttained | src/sdl_graphs.c:96-102 | the folded maximum is the old bound or one of the samples |
| AutoScale.LowerFoldConcat | src/sdl_graphs.c:96-102 | two plot calls in a row give the same minimum as one call with all their samples |
| AutoScale.UpperFoldConcat | src/sdl_graphs.c:96-102 | two plot calls in a row give the same maximum as one call with all their samples |
| AutoScale.Widened | src/sdl_graphs.c:142-145 | the zero-range guard: an ordered range comes out non-empty, and a non-empty range is unchanged |
| Layout.Columns | src/sdl_graphs.c:433-434 | two columns exactly when there is more than one Axes, otherwise one |
| Layout.Rows | src/sdl_graphs.c:434-435 | `ceil(n / cols)`: enough rows for all Axes, and no row to spare |
| Layout.GridPlacement | src/sdl_graphs.c:441-445 | Axes `i` is in row `i / cols` and column `i % cols` of the grid; distinct Axes get distinct cells |
| Layout.CellInWindow | src/sdl_graphs.c:437-438 | every grid cell lies within the window |
| Layout.AxesInsideCell | src/sdl_graphs.c:447-458 | each Axes rectangle lies strictly inside its cell, 0.83 of the cell wide and 0.75 of it high |
| Layout.AxesInWindow | src/sdl_graphs.c:430-460 | every Axes rectangle lies within the window and has positive size exactly when the window does |
| Layout.AxesDisjoint | src/sdl_graphs.c:430-460 | two distinct Axes of a Figure never overlap |
| Layout.ColumnsApart | src/sdl_graphs.c:455-456 | an Axes in an earlier column ends before one in a later column begins |
| Layout.RowsApart | src/sdl_graphs.c:456-458 | an Axes in an earlier row ends before one in a later row begins |
| Layout.FourSubplotDashboard | examples/grid.c:19 | the four-subplot 1024 x 768 dashboard is a 2 x 2 grid, with the four rectangles given exactly |
| Layout.LegacyAxesRect | sdl_graphs.c:293-303 | the legacy rectangle starts at 15% of the window and lies within it, strictly once the window has area |
| Scaling.DataRange | src/sdl_graphs.c:206-209 | the divisor is positive; it is larger than the span when there is one, and 1 otherwise |
| Scaling.MinimumOnEdges | src/sdl_graphs.c:251-252 | the data minimum is drawn on the left edge and on the bottom edge |
| Scaling.MaximumInside | src/sdl_graphs.c:251-252 | with a non-empty span the maximum is drawn at 1/1.1 of the width and height, strictly inside the rectangle |
| Scaling.PixelXScales | src/sdl_graphs.c:251 | data offsets become proportional screen offsets |
| Scaling.PixelMonotone | src/sdl_graphs.c:251-252 | the x mapping is monotone and the y mapping antitone |
| Scaling.DataInsideRect | src/sdl_graphs.c:251-252 | every value within the data limits is drawn within the Axes rectangle |
| Scaling.TicksSpanEdges | src/sdl_graphs.c:212-228 | the six ticks run from edge to edge in steps of one fifth |
| Scaling.TickValuesSpanData | src/sdl_graphs.c:218-230 | the first and last tick labels are the data limits |
| Scaling.TickLabelsOffData | src/sdl_graphs.c:218-252 | as written, the value printed at tick `i > 0` is drawn left of its tick, at 1/1.1 of its distance from the edge |
| Scaling.CorrectedTicksOnData | src/sdl_graphs.c:208-252 | with labels taken from the padded range, every label value is drawn exactly at its tick, on both axes |
| Scaling.Marker | src/sdl_graphs.c:270-275 | a scatter marker is a `size` x `size` square centred on the point |
| Projection.NormalizeEnds | src/sdl_graphs.c:979-981 | the data limits normalise to -1 and 1, the midpoint to 0 |
| Projection.NormalizeInRange | src/sdl_graphs.c:979-981 | values within the limits normalise into [-1, 1], monotonically |
| Projection.PlaneRotationIsometry | src/sdl_graphs.c:989-995 | each planar rotation step keeps squared lengths |
| Projection.RotateIsometry | src/sdl_graphs.c:987-995 | the azimuth-then-elevation rotation keeps every point's distance from the centre |
| Projection.RotateNone | src/sdl_graphs.c:987-995 | with both angles zero the rotation is the identity |
| Projection.CentreProjectsToCentre | src/sdl_graphs.c:977-1006 | the centre of the data box is drawn at the centre of the Axes, for every camera |
| Projection.ProjectionWithinDisc | src/sdl_graphs.c:977-1006 | every point of the data box is drawn within sqrt(3) * scale of the Axes centre |
| Projection.FrontView | src/sdl_graphs.c:977-1006 | seen from the front, x and y are drawn directly, scaled, with y upwards |
| Projection.CageEdgesListed | src/sdl_graphs.c:1039-1043 | the cage loop draws exactly these twelve corner pairs, in this order |
| Projection.CageEdgesAdjacent | src/sdl_graphs.c:1024-1043 | every cage line joins two corners that differ in exactly one coordinate |
| Projection.CageEdgesDistinct | src/sdl_graphs.c:1039-1043 | no edge is drawn twice, in either direction |
| Projection.CageEdgesComplete | src/sdl_graphs.c:1024-1043 | every edge of the box is drawn |
| Projection.CageEdgesAxisParallel | src/sdl_graphs.c:1024-1043 | on a box of positive extent, every cage line is parallel to one axis |
| Projection.ClampElevation | src/sdl_graphs.c:871-872 | the elevation ends in [-89, 89]; it is unchanged inside and set to the limit it crossed outside |
| Projection.Dragged | src/sdl_graphs.c:867-872 | a drag turns the azimuth by half a degree per pixel and keeps the elevation within [-89, 89] |
| Projection.DragWithinLimits | src/sdl_graphs.c:868-872 | a drag that stays within the limits moves the elevation by exactly half a degree per pixel |
| Strokes.ThickPattern | src/sdl_graphs.c:577-579 | thick dashes are 10 on / 5 off for a dashed style and 3 / 3 otherwise |
| Strokes.ThinPattern | src/sdl_graphs.c:490-492 | thin dashes are 10 / 5 for a dashed style and 2 / 4 otherwise |
| Strokes.DashIntervals | src/sdl_graphs.c:581-593 | the loop emits dash `k` (from `k * step` to `min(k * step + dash, dist)`) for exactly the `k` whose start is before `dist` |
| Strokes.NoDashesIffEmpty | src/sdl_graphs.c:581 | a segment gets no dash exactly when its length is zero |
| Strokes.DashInSegment | src/sdl_graphs.c:582-583 | every emitted dash is a non-empty stretch of the segment, at most one dash long |
| Strokes.DashesApart | src/sdl_graphs.c:581-583 | dashes are ordered, and each starts at least one gap after the one before ends |
| Strokes.RoundOf | src/sdl_graphs.c:581 | the loop round in which the parameter passes `t` |
| Strokes.DashesTileSegment | src/sdl_graphs.c:581-593 | every point of the segment lies in the round of some emitted dash, and is on that dash exactly when it is at most one dash length past its start, otherwise in the gap after it |
| Strokes.AlongSegmentEnds | src/sdl_graphs.c:586-589 | the dash parameter runs from the start point at 0 to the end point at `dist` |
| Strokes.ThickLine | src/sdl_graphs.c:524-552 | a thin line when the thickness is at most 1; nothing when the length is zero; otherwise a quad whose short sides are centred on the end points and whose long sides run parallel to the segment |
| Strokes.ThickLineIsRectangle | src/sdl_graphs.c:537-552 | the quad's short sides are perpendicular to the segment and exactly `thickness` long |
| Strokes.UnitDirection | src/sdl_graphs.c:537-538 | `(dx / len, dy / len)` is a unit vector |
| Strokes.ScaledUnit | src/sdl_graphs.c:586-589 | a dash of parameter length `l` has Euclidean length `l` |
| Strokes.DashStroke | src/sdl_graphs.c:586-592 | a dash is drawn thin when the thickness is at most 1, and drawn as nothing exactly when it is empty and thick |
| Strokes.DashedThickLine | src/sdl_graphs.c:568-594 | nothing for a zero-length segment; otherwise one thick stroke per dash of the pattern, every dash that starts before the end and no other |
| Strokes.ThinDashedLine | src/sdl_graphs.c:478-505 | the whole segment for a solid style; otherwise one thin line per dash of the pattern; `SDL_RenderLineDashed` is called only from commented-out lines (src/sdl_graphs.c:263, 266), so no drawing path of the library reaches it at present |
| Annotations.Legend | src/sdl_graphs.c:615-652 | no legend when it is off or there are no series; otherwise a 120 x (20n + 20) box 10 pixels in from the top-right corner, and one row per series, in order, centred at `box.y + 20 + 20i`, its label anchored at `box.x + 35` on the row, with a line proxy exactly for line series |
| Annotations.RowsInsideBox | src/sdl_graphs.c:622-638 | every legend row lies inside the box, rows 20 apart |
| Annotations.BoxInsideAxes | src/sdl_graphs.c:620-624 | the box stays inside an Axes at least 130 wide and tall enough for every row |
| Annotations.LineSwatchStroke | src/sdl_graphs.c:641-643 | a line proxy is a 20 x 2 quad centred on its row |
| Annotations.DotSwatchCentred | src/sdl_graphs.c:644-646 | a dot proxy is a 6 x 6 square centred on its row, 15 pixels into the box |
| Annotations.TextPlacement | src/sdl_graphs.c:393-416 | text is drawn exactly when text, font, surface and texture are all present; it is centred vertically on `y`, with its right edge at `x` when right-aligned and its centre at `x` otherwise |
| Graphs.Axes.constructor | src/sdl_graphs.c:43-59 | a new Axes has no series, the Figure's title, no labels, grid and legend off, 2D projection, the ±1e38 sentinel limits and a neutral camera |
| Graphs.Axes.Plot | src/sdl_graphs.c:81-103 | exactly one series is appended (a solid line of thickness 2, marker size 0, label "Series") and earlier ones are kept; the limits are the fold of the samples, never shrink and contain every sample |
| Graphs.Axes.Scatter | src/sdl_graphs.c:162-170 | the same as `plot`, except that the new series is a scatter series of the given marker size |
| Graphs.Axes.SetProjection | src/sdl_graphs.c:940-957 | switching to 3D installs azimuth 300, elevation 30, zoom 1, z limits [-1, 1] and the default axis labels; switching to 2D only changes the projection |
| Graphs.Axes.Plot3D | src/sdl_graphs.c:109-146 | no change without all three arrays and a positive count; otherwise the Axes is 3D (with the defaults when it was not), one solid line is appended, and all three ranges are folded, widened when empty, strictly ordered and contain every sample |
| Graphs.Axes.AutoScale3D | src/sdl_graphs.c:131-145 | the limits are the folds of the samples with empty ranges widened by one, strictly ordered, and contain every sample |
| Graphs.Axes.FoldSamples3D | src/sdl_graphs.c:131-141 | the loop leaves all six limits equal to the folds of the samples |
| Graphs.Axes.SetGrid | src/sdl_graphs.c:711-713 | sets the grid flag and nothing else |
| Graphs.Axes.SetLegend | src/sdl_graphs.c:742-744 | sets the legend flag and nothing else |
| Graphs.Axes.SetLineStyle | src/sdl_graphs.c:726-730 | restyles series `idx` only, if it exists; otherwise changes nothing |
| Graphs.Axes.SetLabel | src/sdl_graphs.c:757-761 | renames series `idx` only (at most 31 characters), if it exists; otherwise changes nothing |
| Graphs.Axes.SetXLabel | src/sdl_graphs.c:773-775 | sets the x-axis label and nothing else |
| Graphs.Axes.SetYLabel | src/sdl_graphs.c:788-790 | sets the y-axis label and nothing else |
| Graphs.Axes.SetTitle | src/sdl_graphs.c:802-804 | sets the title and nothing else |
| Graphs.FoldedRangeOrdered | src/sdl_graphs.c:131-141 | after folding a non-empty batch, the limits enclose every sample and are ordered |
| Graphs.WidenedCovers | src/sdl_graphs.c:131-145 | after folding and widening, a range is non-empty and encloses every sample |
| Graphs.Figure.constructor | src/sdl_graphs.c:24-65 | `subplots` makes `num_axes` distinct fresh Axes in the initial state, each laid out in its grid cell for the window size |
| Graphs.Figure.UpdateLayout | src/sdl_graphs.c:430-460 | Axes `i` of `n` gets the rectangle of its grid cell, and nothing but the rectangles changes |
| Graphs.Figure.ToggleGrids | src/sdl_toolbar.c:233-240 | every Axes' grid flag is negated, so the list of grid flags becomes its negation, and nothing else changes |
| Graphs.NegatedTwice | src/sdl_toolbar.c:233-240 | two clicks on the grid toggle restore every flag |
| Graphs.Figure.DragCamera | src/sdl_graphs.c:859-874 | with the left button held every 3D Axes turns by the drag with its elevation clamped; 2D Axes and drags without the button change nothing |
| Toolbar.StyleButtonsStacked | src/sdl_toolbar.c:48-54 | style button `i` sits at y = 50 + 60i and carries action `i` |
| Toolbar.StyleOfAction | src/sdl_toolbar.c:254 | action 0, 1, 2 stands for the solid, dashed, dotted style |
| Toolbar.WidgetsDisjoint | src/sdl_toolbar.c:30-64 | no two toolbar widgets overlap, wherever the slider handle is |
| Toolbar.CRem | src/sdl_toolbar.c:207 | C's truncating `%`: the remainder takes the dividend's sign and is smaller than the divisor |
| Toolbar.CRemAgrees | src/sdl_toolbar.c:207 | on a non-negative dividend C's `%` is the Euclidean one; on -1 it is not |
| Toolbar.NavigationInRange | src/sdl_toolbar.c:205-215 | next and previous keep a valid active index valid |
| Toolbar.NextStep | src/sdl_toolbar.c:207 | next moves one series forward and wraps from the last to the first |
| Toolbar.NavigationInverse | src/sdl_toolbar.c:205-215 | next and previous undo each other on a valid index |
| Toolbar.NextClicksCycle | src/sdl_toolbar.c:205-208 | `k` clicks on next advance the index by `k` cyclically, so `n` clicks come back |
| Toolbar.NextClicksAdvance | src/sdl_toolbar.c:205-208 | `k` clicks on next from a valid index give `(i + k) % n` |
| Toolbar.NextOfRemainder | src/sdl_toolbar.c:207 | a click on next from the remainder of `a` gives the remainder of `a + 1` |
| Toolbar.Clamp | src/sdl_toolbar.c:268-269 | the mouse x ends inside the track, and is unchanged when it already was |
| Toolbar.SliderValue | src/sdl_toolbar.c:275 | the slider value lies in [0, 1] |
| Toolbar.SliderMapping | src/sdl_toolbar.c:268-276 | thickness lies in [1, 10], the track ends give 0 and 1, positions beyond them the end values, the value is monotone in x, and the value is recovered from the thickness |
| Toolbar.HandleCentred | src/sdl_toolbar.c:272 | the handle is centred on the clamped mouse x, so its centre stays on the track |
| Toolbar.SwatchHit | src/sdl_toolbar.c:218-224 | the last swatch containing the click, or none when no swatch does |
| Toolbar.StyleHit | src/sdl_toolbar.c:249-259 | the last style button containing the click, or none when no button does |
| Toolbar.HitsUnique | src/sdl_toolbar.c:218-259 | a click inside a swatch or style button finds exactly that one |
| Toolbar.ExclusiveHits | src/sdl_toolbar.c:205-259 | a click on a swatch or style button is on neither navigation button, and not on both kinds |
| Toolbar.Toolbar.constructor | src/sdl_toolbar.c:26-35 | a new toolbar targets the Figure, has the first Axes and series active, is running, is not dragging, has value 0 and has the handle at the left end of the track |
| Toolbar.Toolbar.HandleEvent | src/sdl_toolbar.c:195-283 | a click in the toolbar window has every effect of `Click` (`ClickEffect`: grid toggle, navigation, recolour, restyle; `ClickOutcome`: drag start; the save request; the slider value kept); a button-down elsewhere changes nothing; motion drags only while dragging; a button-up ends the drag; a valid active series stays valid |
| Toolbar.Toolbar.Click | src/sdl_toolbar.c:197-260 | each widget's effect, stated by `ClickEffect`: navigation, recolouring, restyling only when there are series, grid toggle on every Axes, no other series changed; plus the drag start on the handle and a save request on the save button |
| Toolbar.Toolbar.Controls | src/sdl_toolbar.c:226-246 | the save button requests an export, the grid toggle flips the grid of every Axes, the handle starts a drag; the slider does not move |
| Toolbar.Toolbar.EditSeries | src/sdl_toolbar.c:204-259 | the series part of a click: navigation, recolour and restyle of the active series, and no change to other Axes' series |
| Toolbar.Toolbar.Navigate | src/sdl_toolbar.c:204-215 | next gives `(i + 1) % n`, previous steps back and wraps from -1 to `n - 1`, anything else keeps the index |
| Toolbar.Toolbar.RecolourActive | src/sdl_toolbar.c:217-224 | the swatch under the click recolours the active series; nothing else changes |
| Toolbar.Toolbar.RestyleActive | src/sdl_toolbar.c:248-259 | the style button under the click restyles the active series when there are series; nothing else changes |
| Toolbar.Toolbar.Drag | src/sdl_toolbar.c:263-278 | the handle is centred on the clamped x, the value is its fraction of the track, and the active series gets thickness `1 + 9 * value` |
| LegacyGraphs.Axes.constructor | sdl_graphs.c:28-40 | the single Axes starts with no series, the title, no labels, grid and legend off, the sentinel limits and the given rectangle |
| LegacyGraphs.Axes.Plot | sdl_graphs.c:58-79 | exactly one series is appended (a line of thickness 2, marker size 0, label "Series", style left unset) and earlier ones are kept; the limits are the fold of the samples, never shrink and contain every sample |
| LegacyGraphs.Axes.Scatter | sdl_graphs.c:95-103 | as `plot`, except that the new series is a scatter series of the given marker size |
| LegacyGraphs.Axes.SetGrid | sdl_graphs.c:510-512 | sets the grid flag and nothing else |
| LegacyGraphs.Axes.SetLegend | sdl_graphs.c:541-543 | sets the legend flag and nothing else |
| LegacyGraphs.Axes.SetLineStyle | sdl_graphs.c:525-529 | restyles series `idx` only, if it exists; otherwise changes nothing |
| LegacyGraphs.Axes.SetLabel | sdl_graphs.c:556-560 | renames series `idx` only (at most 31 characters), if it exists; otherwise changes nothing |
| LegacyGraphs.Axes.SetXLabel | sdl_graphs.c:572-574 | sets the x-axis label and nothing else |
| LegacyGraphs.Axes.SetYLabel | sdl_graphs.c:587-589 | sets the y-axis label and nothing else |
| LegacyGraphs.Axes.SetTitle | sdl_graphs.c:601-603 | sets the title and nothing else |
| LegacyGraphs.InitialRect | sdl_graphs.c:30 | the initial rectangle ends 40 pixels short of the right edge and 60 short of the bottom edge |
| LegacyGraphs.InitialRectInWindow | sdl_graphs.c:30 | the initial rectangle lies strictly inside any window larger than 120 x 120 |
| LegacyGraphs.Figure.constructor | sdl_graphs.c:21-43 | `subplots` makes exactly one fresh Axes, in the initial state and in the initial rectangle |
| LegacyGraphs.Figure.UpdateLayout | sdl_graphs.c:293-303 | every Axes gets the fixed-fraction rectangle, and nothing but the rectangles changes |
| LegacyGraphs.SamplesDrawnInWindow | sdl_graphs.c:141-187 | after a resize every sample within the limits is drawn inside the window, above the bottom 20% |
| LegacyGraphs.LegendFitsAfterResize | sdl_graphs.c:458-467 | after a resize the legend fits inside the Axes when the window is large enough |

## Left out

- Window, renderer, font and texture handling, and every drawing call. The model computes the geometry that is handed to SDL: rectangles, points, quads, dash lists and text anchors. It does not model the calls themselves or their order.
- `show` is modelled only as far as it changes state. The camera-drag arithmetic is `Figure.DragCamera` and a resize is `UpdateLayout`. Event polling, quitting and rendering are not modelled.
- The comment above the drag loop in `show` says only the Axes under the mouse rotates. The code rotates every 3D Axes, and the model follows the code.
- The doc comment of `update_layout` speaks of 15% margins. The code uses 12/5/10/15%, and the model follows the code.
- `render_toolbar`, `render_axes`, `render_axes_2d` and `render_axes_3d` are not modelled beyond the pure geometry they use (Scaling, Projection, Strokes, Annotations).
- `save_figure_as_png`: this is file I/O and is not modelled. A click on the save button returns `saveRequested`.
- `destroy_figure`, `destroy_toolbar`, `malloc`, `realloc` and `free`, and allocation failure: memory management only.
- Floating-point rounding, and `float` versus `double` constants (`1e38f`): everything is a real.
- The library never sets some fields:
  - the z samples of a 2D `plot`;
  - the marker size of `plot3D`;
  - the style of a legacy `plot`.
  These are left unconstrained (an arbitrary value), and the contracts state everything else about the new series.
- Cases the C code leaves undefined become preconditions:
  - a negative series index in `set_linestyle` and `set_label`;
  - a negative `num_axes` in `subplots`;
  - the next-line click with no series, which divides by zero;
  - a swatch click or a drag without a valid active series;
  - a style click with series but an invalid active index;
  - a `NULL` Axes pointer.
- An active line index of -1 is not ruled out in general. The previous-line button leaves the index at -1 when the Axes has no series, and the model allows for that.
- The `rel_x`, `rel_y`, `rel_w` and `rel_h` fields: no core function reads or writes them.
- include/sdl_graphs.h and include/sdl_toolbar.h are declarations only. The field and enumeration shapes come from them.
- The toolbar's `prev_ax_btn` and `next_ax_btn` are never initialised or used in the code, so they are not part of this model.
- Projection.Normalize, Projection.Project: require non-zero x, y and z ranges, which `project_3d` divides by without a guard. The widening that avoids a zero range runs only in `plot3D`. A zero range is reachable: `plot` of a single point followed by `set_projection(ax, PROJECTION_3D)` leaves `x_min == x_max`, since `set_projection` resets only the z limits. Rendering then divides 0 by 0. The model does not cover that case.
- Types.Truncated: counts characters of a `seq<char>`, while `strncpy(label, name, 31)` keeps 31 bytes of the C string. For a label with multi-byte characters the library keeps fewer characters than the model, and may cut one in half. Text encoding is not modelled.
- Strokes.ThickLine: states its zero-length case as `len == 0`, as the code tests it. The equivalent "the two end points coincide" is not proved.
- Projection: `cosf`/`sinf` of the angles in degrees are not computed. A camera takes the cosine and sine of each angle directly, with `c*c + s*s == 1`.
- Graphs.Axes.SetProjection: the early return for a `NULL` Axes is not modelled, because an object reference is never null here.
- Toolbar.Toolbar.Click: the checks after navigation (save, grid, handle, style) run in the library's order except that the style buttons are grouped with the other series edits. This is possible because those checks touch disjoint state.

## Findings

| source | as written | input that shows it | evidently intended | confidence | as-written member | corrected member |
|---|---|---|---|---|---|---|
| src/sdl_graphs.c:218-252 | tick labels show `min + ratio * (max - min)`, but points are drawn with the padded range `1.1 * (max - min)`; the same holds in sdl_graphs.c:153-187 | x limits [0, 10] on a 100-pixel-wide Axes: the last tick, at the right edge, reads 10, yet x = 10 is drawn 9.09 pixels further left | label each tick with the value drawn there, `min + ratio * range`, which the commented-out lines 217 and 229 suggest | medium, not executed | Scaling.TickLabelsOffData | Scaling.CorrectedTickValue, Scaling.CorrectedTicksOnData |
