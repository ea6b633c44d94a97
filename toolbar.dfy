/**
 * The control window of a Figure: a small state machine driven by mouse
 * events. Buttons cycle the active series, restyle and recolour it, toggle
 * the grid of every Axes, request a PNG export and drag a slider that
 * sets the active series' thickness.
 *
 * Widget rectangles are fixed at creation; only the slider handle moves.
 * Every hit test is closed: a click on an edge counts as inside.
 */
module Toolbar {
  import opened Types
  import Graphs

  const PrevButton: Rect := Rect(25.0, 10.0, 40.0, 30.0)
  const NextButton: Rect := Rect(185.0, 10.0, 40.0, 30.0)
  const GridToggle: Rect := Rect(25.0, 330.0, 20.0, 20.0)
  const SaveButton: Rect := Rect(25.0, 430.0, 200.0, 40.0)

  /** The slider track: the mouse x is clamped to its horizontal extent. */
  const Track: Rect := Rect(25.0, 270.0, 200.0, 10.0)
  const HandleWidth: real := 15.0

  /** A push button and the number its click stands for. */
  datatype Button = Button(rect: Rect, actionId: int)

  /** The three style buttons, Solid, Dashed and Dotted, stacked 60 pixels apart. */
  const StyleButtons: seq<Button> := [
    Button(Rect(25.0, 50.0, 200.0, 40.0), 0),
    Button(Rect(25.0, 110.0, 200.0, 40.0), 1),
    Button(Rect(25.0, 170.0, 200.0, 40.0), 2)]

  /** A colour swatch: its rectangle and the colour it applies. */
  datatype Swatch = Swatch(rect: Rect, color: Color)

  /** Red, green and blue swatches, 70 pixels apart. */
  const Swatches: seq<Swatch> := [
    Swatch(Rect(25.0, 380.0, 50.0, 30.0), Color(255, 0, 0, 255)),
    Swatch(Rect(95.0, 380.0, 50.0, 30.0), Color(0, 255, 0, 255)),
    Swatch(Rect(165.0, 380.0, 50.0, 30.0), Color(0, 0, 255, 255))]

  /** Style button `i` carries action `i`, and sits at y = 50 + 60i. */
  lemma StyleButtonsStacked(i: int)
    requires 0 <= i < |StyleButtons|
    ensures StyleButtons[i] == Button(Rect(25.0, 50.0 + 60.0 * i as real, 200.0, 40.0), i)
  {
  }

  /** The style an action id stands for, by the order of the style enumeration. */
  function StyleOfAction(id: int): (s: LineStyle)
    requires 0 <= id < 3
    ensures s == Solid <==> id == 0
    ensures s == Dashed <==> id == 1
    ensures s == Dotted <==> id == 2
  {
    if id == 0 then Solid else if id == 1 then Dashed else Dotted
  }

  /** The slider handle at horizontal position `hx`, straddling the track. */
  function Handle(hx: real): Rect {
    Rect(hx, 260.0, HandleWidth, 30.0)
  }

  /** Every widget of the toolbar, with the handle at `hx`. */
  function Widgets(hx: real): seq<Rect> {
    [PrevButton, NextButton, StyleButtons[0].rect, StyleButtons[1].rect, StyleButtons[2].rect,
     Handle(hx), GridToggle, Swatches[0].rect, Swatches[1].rect, Swatches[2].rect, SaveButton]
  }

  /** No two widgets overlap, wherever the handle is, so a click hits at most one of them. */
  lemma WidgetsDisjoint(hx: real, i: int, j: int)
    requires 0 <= i < j < |Widgets(hx)|
    ensures Disjoint(Widgets(hx)[i], Widgets(hx)[j])
  {
  }

  /**
   * C's `%` on a positive divisor: the remainder of division truncated
   * toward zero, which takes the dividend's sign.
   */
  function CRem(a: int, b: int): (r: int)
    requires b > 0
    ensures a >= 0 ==> 0 <= r < b
    ensures a < 0 ==> -b < r <= 0
  {
    if a >= 0 then a % b else -((-a) % b)
  }

  /** Euclidean division is determined by its quotient and remainder bounds. */
  lemma {:induction false} DivModUnique(a: int, n: int, q: int, r: int)
    requires n > 0 && 0 <= r < n && a == q * n + r
    ensures a / n == q && a % n == r
  {
    var d := q - a / n;
    assert d * n == a % n - r;
  }

  /** On a non-negative dividend C's `%` and the Euclidean one agree; on -1 they do not. */
  lemma {:induction false} CRemAgrees(a: int, b: int)
    requires b > 0
    ensures a >= 0 ==> CRem(a, b) == a % b
    ensures CRem(-1, b + 1) == -1 != -1 % (b + 1)
  {
    DivModUnique(1, b + 1, 0, 1);
    DivModUnique(-1, b + 1, -1, b);
  }

  /** The active series after a click on the next-line button. */
  function NextIndex(i: int, n: int): int
    requires n > 0
  {
    CRem(i + 1, n)
  }

  /** The active series after a click on the previous-line button: a step back, from the first to the last. */
  function PrevIndex(i: int, n: int): int {
    if i - 1 < 0 then n - 1 else i - 1
  }

  /** Navigation keeps a valid index valid. */
  lemma NavigationInRange(i: int, n: int)
    requires 0 <= i < n
    ensures 0 <= NextIndex(i, n) < n
    ensures 0 <= PrevIndex(i, n) < n
  {
  }

  /** Next moves one step forward, wrapping from the last series to the first. */
  lemma {:induction false} NextStep(i: int, n: int)
    requires 0 <= i < n
    ensures NextIndex(i, n) == if i + 1 < n then i + 1 else 0
  {
    if i + 1 < n {
      DivModUnique(i + 1, n, 0, i + 1);
    } else {
      DivModUnique(i + 1, n, 1, 0);
    }
  }

  /** The two navigation buttons undo each other on a valid index. */
  lemma {:induction false} NavigationInverse(i: int, n: int)
    requires 0 <= i < n
    ensures PrevIndex(NextIndex(i, n), n) == i
    ensures NextIndex(PrevIndex(i, n), n) == i
  {
    NextStep(i, n);
    NextStep(PrevIndex(i, n), n);
  }

  /** The index after `k` clicks on the next-line button. */
  function NextClicks(i: int, n: int, k: nat): int
    requires n > 0
  {
    if k == 0 then i else NextIndex(NextClicks(i, n, k - 1), n)
  }

  /** From a valid index, `k` clicks on next advance it by `k` cyclically, so `n` clicks come back. */
  lemma {:induction false} NextClicksCycle(i: int, n: int, k: nat)
    requires 0 <= i < n
    ensures NextClicks(i, n, k) == (i + k) % n
    ensures NextClicks(i, n, n) == i
  {
    NextClicksAdvance(i, n, k);
    NextClicksAdvance(i, n, n);
    DivModUnique(i + n, n, 1, i);
  }

  lemma {:induction false} NextClicksAdvance(i: int, n: int, k: nat)
    requires 0 <= i < n
    ensures NextClicks(i, n, k) == (i + k) % n
  {
    if k == 0 {
      DivModUnique(i, n, 0, i);
    } else {
      NextClicksAdvance(i, n, k - 1);
      NextOfRemainder(i + k - 1, n);
    }
  }

  /** One click of next from the remainder of `a` gives the remainder of `a + 1`. */
  lemma {:induction false} NextOfRemainder(a: int, n: int)
    requires a >= 0 && n > 0
    ensures NextIndex(a % n, n) == (a + 1) % n
  {
    var q, r := a / n, a % n;
    NextStep(r, n);
    if r + 1 < n {
      DivModUnique(a + 1, n, q, r + 1);
    } else {
      assert a + 1 == (q + 1) * n + 0;
      DivModUnique(a + 1, n, q + 1, 0);
    }
  }

  /** The mouse x clamped into the track. */
  function Clamp(x: real): (r: real)
    ensures Track.x <= r <= Track.x + Track.w
    ensures Track.x <= x <= Track.x + Track.w ==> r == x
  {
    var a := if x < Track.x then Track.x else x;
    if a > Track.x + Track.w then Track.x + Track.w else a
  }

  /** The slider value for mouse x: the clamped position's fraction of the track. */
  function SliderValue(x: real): (v: real)
    ensures 0.0 <= v <= 1.0
  {
    (Clamp(x) - Track.x) / Track.w
  }

  /** The thickness a slider value stands for. */
  function Thickness(v: real): real {
    1.0 + v * 9.0
  }

  /**
   * The slider maps the track linearly onto thicknesses 1 to 10, ends to
   * ends; positions left or right of the track give the end values, and the
   * value is recovered from the thickness.
   */
  lemma {:induction false} SliderMapping(x: real, u: real)
    ensures 1.0 <= Thickness(SliderValue(x)) <= 10.0
    ensures SliderValue(Track.x) == 0.0 && SliderValue(Track.x + Track.w) == 1.0
    ensures x <= Track.x ==> SliderValue(x) == 0.0
    ensures x >= Track.x + Track.w ==> SliderValue(x) == 1.0
    ensures x <= u ==> SliderValue(x) <= SliderValue(u)
    ensures (Thickness(SliderValue(x)) - 1.0) / 9.0 == SliderValue(x)
  {
    var v := SliderValue(x);
    assert 0.0 <= v * 9.0 <= 9.0;
    if x <= u {
      assert Clamp(x) <= Clamp(u);
    }
  }

  /** The handle is centred on the clamped mouse x, so its centre never leaves the track. */
  lemma HandleCentred(x: real)
    ensures var h := Handle(Clamp(x) - HandleWidth / 2.0);
      h.x + h.w / 2.0 == Clamp(x) && Track.x <= h.x + h.w / 2.0 <= Track.x + Track.w
  {
  }

  /** The mouse events the toolbar reacts to. */
  datatype Event =
    | ButtonDown(inToolbarWindow: bool, x: real, y: real)
    | Motion(x: real)
    | ButtonUp
    | OtherEvent

  /** The swatch hit by a click, among the first `k`: the last one that contains the point. */
  function SwatchHit(k: int, x: real, y: real): (r: Option<int>)
    requires 0 <= k <= |Swatches|
    ensures r.Some? ==> 0 <= r.value < k && Swatches[r.value].rect.Contains(x, y)
    ensures r.None? ==> forall j :: 0 <= j < k ==> !Swatches[j].rect.Contains(x, y)
  {
    if k == 0 then None
    else if Swatches[k - 1].rect.Contains(x, y) then Some(k - 1)
    else SwatchHit(k - 1, x, y)
  }

  /** The style button hit by a click, among the first `k`: the last one that contains the point. */
  function StyleHit(k: int, x: real, y: real): (r: Option<int>)
    requires 0 <= k <= |StyleButtons|
    ensures r.Some? ==> 0 <= r.value < k && StyleButtons[r.value].rect.Contains(x, y)
    ensures r.None? ==> forall j :: 0 <= j < k ==> !StyleButtons[j].rect.Contains(x, y)
  {
    if k == 0 then None
    else if StyleButtons[k - 1].rect.Contains(x, y) then Some(k - 1)
    else StyleHit(k - 1, x, y)
  }

  /** A click hits a swatch when it is inside one. */
  predicate OnSwatch(x: real, y: real) {
    SwatchHit(|Swatches|, x, y).Some?
  }

  /** A click hits a style button when it is inside one. */
  predicate OnStyleButton(x: real, y: real) {
    StyleHit(|StyleButtons|, x, y).Some?
  }

  /** The series list with series `i` recoloured. */
  function Recoloured(lines: seq<Series>, i: int, c: Color): seq<Series>
    requires 0 <= i < |lines|
  {
    lines[i := lines[i].(color := c)]
  }

  /** The series list with series `i` restyled. */
  function Restyled(lines: seq<Series>, i: int, s: LineStyle): seq<Series>
    requires 0 <= i < |lines|
  {
    lines[i := lines[i].(style := s)]
  }

  class Toolbar {
    const target: Graphs.Figure
    const activeAxesIdx: int
    var running: bool
    var activeLineIdx: int
    var dragging: bool
    var sliderValue: real
    var handleX: real

    /** `create_toolbar`: the first Axes and its first series active, the slider at rest at the left end. */
    constructor (target: Graphs.Figure)
      ensures this.target == target
      ensures activeAxesIdx == 0 && activeLineIdx == 0
      ensures running && !dragging && sliderValue == 0.0 && handleX == Track.x
    {
      this.target := target;
      activeAxesIdx := 0;
      activeLineIdx := 0;
      running := true;
      dragging := false;
      sliderValue := 0.0;
      handleX := 25.0;
    }

    /** The active Axes exists. */
    predicate AxesValid()
      reads this
    {
      0 <= activeAxesIdx < |target.axes|
    }

    /** The series of the active Axes. */
    function ActiveLines(): seq<Series>
      reads this, target.axes
      requires AxesValid()
    {
      target.axes[activeAxesIdx].lines
    }

    /** The active series exists. */
    predicate LineValid()
      reads this, target.axes
    {
      AxesValid() && 0 <= activeLineIdx < |ActiveLines()|
    }

    /**
     * What `handle_toolbar_events` needs to be defined on `e`: a click on
     * next divides by the series count, so there must be series; a click on
     * a swatch and a drag write the active series, so it must exist; a click
     * on a style button writes it when there are series.
     */
    predicate Defined(e: Event)
      reads this, target.axes
    {
      (e.ButtonDown? && e.inToolbarWindow ==>
        (NextButton.Contains(e.x, e.y) ==> AxesValid() && |ActiveLines()| > 0) &&
        (PrevButton.Contains(e.x, e.y) ==> AxesValid()) &&
        (OnSwatch(e.x, e.y) ==> LineValid()) &&
        (OnStyleButton(e.x, e.y) ==> AxesValid() && (|ActiveLines()| > 0 ==> LineValid()))) &&
      (e.Motion? && dragging ==> LineValid())
    }

    /**
     * `handle_toolbar_events`: a button-down in the toolbar window is a
     * click on whatever widget lies under the mouse; a button-down in
     * another window is ignored; motion drags the slider while a drag is
     * on; a button-up ends any drag. Every other event changes nothing.
     */
    method HandleEvent(e: Event) returns (saveRequested: bool)
      requires target.Valid() && Defined(e)
      modifies this`activeLineIdx, this`dragging, this`sliderValue, this`handleX,
        target.axes`showGrid, target.axes`lines
      ensures saveRequested <==> e.ButtonDown? && e.inToolbarWindow && SaveButton.Contains(e.x, e.y)
      ensures !(e.ButtonDown? && e.inToolbarWindow) ==> (activeLineIdx == old(activeLineIdx) &&
        forall k :: 0 <= k < |target.axes| ==> target.axes[k].showGrid == old(target.axes[k].showGrid))
      ensures !(e.ButtonDown? && e.inToolbarWindow) && !(e.Motion? && old(dragging)) ==>
        sliderValue == old(sliderValue) && handleX == old(handleX) &&
        forall k :: 0 <= k < |target.axes| ==> target.axes[k].lines == old(target.axes[k].lines)
      ensures e.ButtonUp? ==> !dragging
      ensures !e.ButtonUp? && !(e.ButtonDown? && e.inToolbarWindow) ==> dragging == old(dragging)
      ensures e.ButtonDown? && e.inToolbarWindow ==> ClickOutcome(e.x, e.y, old(handleX), old(dragging))
      ensures e.ButtonDown? && e.inToolbarWindow ==> ClickEffect(e.x, e.y) && sliderValue == old(sliderValue)
      ensures e.Motion? && old(dragging) ==>
        sliderValue == SliderValue(e.x) && handleX == Clamp(e.x) - HandleWidth / 2.0 &&
        ActiveLines() == old(ActiveLines())[activeLineIdx := old(ActiveLines())[activeLineIdx].(thickness := Thickness(SliderValue(e.x)))] &&
        forall k :: 0 <= k < |target.axes| && k != activeAxesIdx ==> target.axes[k].lines == old(target.axes[k].lines)
      ensures old(LineValid()) ==> LineValid()
    {
      saveRequested := false;
      if e.ButtonDown? {
        if e.inToolbarWindow {
          saveRequested := Click(e.x, e.y);
        }
      } else if e.Motion? {
        if dragging {
          Drag(e.x);
        }
      } else if e.ButtonUp? {
        dragging := false;
      }
    }

    /**
     * The part of a click's outcome stated on the new state alone: the
     * slider did not move and a drag started when the handle was hit.
     * The rest is stated on `Click` itself.
     */
    predicate ClickOutcome(mx: real, my: real, oldHandleX: real, oldDragging: bool)
      reads this
    {
      handleX == oldHandleX && dragging == (oldDragging || Handle(oldHandleX).Contains(mx, my))
    }

    /**
     * What a click at (`mx`, `my`) does to the grid flags, the active index
     * and the series, between the state before it and the state after:
     * the grid toggle flips the grid of every Axes; next and previous move
     * the active index cyclically and nothing else moves it; a swatch
     * recolours the active series; a style button restyles it when there
     * are series; no other series changes.
     */
    twostate predicate ClickEffect(mx: real, my: real)
      reads this, target.axes
      requires old(Defined(ButtonDown(true, mx, my)))
    {
      (forall k :: 0 <= k < |target.axes| ==>
        target.axes[k].showGrid == (old(target.axes[k].showGrid) != GridToggle.Contains(mx, my))) &&
      (NextButton.Contains(mx, my) ==> activeLineIdx == NextIndex(old(activeLineIdx), |old(ActiveLines())|)) &&
      (PrevButton.Contains(mx, my) ==> activeLineIdx == PrevIndex(old(activeLineIdx), |old(ActiveLines())|)) &&
      (!NextButton.Contains(mx, my) && !PrevButton.Contains(mx, my) ==> activeLineIdx == old(activeLineIdx)) &&
      (forall k :: 0 <= k < |target.axes| && k != activeAxesIdx ==> target.axes[k].lines == old(target.axes[k].lines)) &&
      (forall j :: 0 <= j < |Swatches| && Swatches[j].rect.Contains(mx, my) ==>
        AxesValid() && old(LineValid()) &&
        ActiveLines() == Recoloured(old(ActiveLines()), activeLineIdx, Swatches[j].color)) &&
      (forall j :: 0 <= j < |StyleButtons| && StyleButtons[j].rect.Contains(mx, my) ==>
        AxesValid() && old(AxesValid()) && (|old(ActiveLines())| > 0 ==> old(LineValid())) &&
        ActiveLines() == (if |old(ActiveLines())| > 0
          then Restyled(old(ActiveLines()), activeLineIdx, StyleOfAction(StyleButtons[j].actionId))
          else old(ActiveLines()))) &&
      (!OnSwatch(mx, my) && !OnStyleButton(mx, my) ==>
        forall k :: 0 <= k < |target.axes| ==> target.axes[k].lines == old(target.axes[k].lines))
    }

    /**
     * A button-down at (`mx`, `my`) in the toolbar window. Next and previous
     * move the active series cyclically; a swatch recolours it; a style
     * button restyles it when there are series; the grid toggle flips the
     * grid of every Axes; the handle starts a drag; the save button requests
     * a PNG export (the export itself is not modelled). Since no two widgets
     * overlap, at most one of these happens.
     */
    method Click(mx: real, my: real) returns (saveRequested: bool)
      requires target.Valid() && Defined(ButtonDown(true, mx, my))
      modifies this`activeLineIdx, this`dragging, target.axes`showGrid, target.axes`lines
      ensures saveRequested <==> SaveButton.Contains(mx, my)
      ensures ClickOutcome(mx, my, handleX, old(dragging))
      ensures ClickEffect(mx, my)
      ensures old(LineValid()) ==> LineValid()
    {
      EditSeries(mx, my);
      saveRequested := Controls(mx, my);
    }

    /**
     * The part of a click that leaves the series alone: the save button,
     * the grid toggle and the slider handle.
     */
    method Controls(mx: real, my: real) returns (saveRequested: bool)
      requires target.Valid()
      modifies this`dragging, target.axes`showGrid
      ensures saveRequested <==> SaveButton.Contains(mx, my)
      ensures ClickOutcome(mx, my, handleX, old(dragging))
      ensures forall k :: 0 <= k < |target.axes| ==>
        target.axes[k].showGrid == (old(target.axes[k].showGrid) != GridToggle.Contains(mx, my))
    {
      saveRequested := SaveButton.Contains(mx, my);
      if GridToggle.Contains(mx, my) {
        target.ToggleGrids();
      }
      if Handle(handleX).Contains(mx, my) {
        dragging := true;
      }
    }

    /**
     * The series part of a click, in the library's order: navigation, then
     * the swatches, then the style buttons. (The save, grid and handle
     * checks that the library interleaves with these touch neither the
     * series nor the active index.)
     */
    method EditSeries(mx: real, my: real)
      requires target.Valid() && Defined(ButtonDown(true, mx, my))
      modifies this`activeLineIdx, target.axes`lines
      ensures NextButton.Contains(mx, my) ==> activeLineIdx == NextIndex(old(activeLineIdx), |old(ActiveLines())|)
      ensures PrevButton.Contains(mx, my) ==> activeLineIdx == PrevIndex(old(activeLineIdx), |old(ActiveLines())|)
      ensures !NextButton.Contains(mx, my) && !PrevButton.Contains(mx, my) ==> activeLineIdx == old(activeLineIdx)
      ensures forall k :: 0 <= k < |target.axes| && k != activeAxesIdx ==> target.axes[k].lines == old(target.axes[k].lines)
      ensures forall j :: 0 <= j < |Swatches| && Swatches[j].rect.Contains(mx, my) ==>
        ActiveLines() == Recoloured(old(ActiveLines()), activeLineIdx, Swatches[j].color)
      ensures forall j :: 0 <= j < |StyleButtons| && StyleButtons[j].rect.Contains(mx, my) ==>
        ActiveLines() == (if |old(ActiveLines())| > 0
          then Restyled(old(ActiveLines()), activeLineIdx, StyleOfAction(StyleButtons[j].actionId))
          else old(ActiveLines()))
      ensures !OnSwatch(mx, my) && !OnStyleButton(mx, my) ==>
        forall k :: 0 <= k < |target.axes| ==> target.axes[k].lines == old(target.axes[k].lines)
      ensures old(LineValid()) ==> LineValid()
    {
      HitsUnique(mx, my);
      ExclusiveHits(mx, my);
      Navigate(mx, my);
      if OnSwatch(mx, my) {
        RecolourActive(mx, my);
      }
      if OnStyleButton(mx, my) {
        RestyleActive(mx, my);
      }
    }

    /** The navigation part of a click: next and previous move the active series cyclically. */
    method Navigate(mx: real, my: real)
      requires NextButton.Contains(mx, my) ==> AxesValid() && |ActiveLines()| > 0
      requires PrevButton.Contains(mx, my) ==> AxesValid()
      modifies this`activeLineIdx
      ensures NextButton.Contains(mx, my) ==> activeLineIdx == NextIndex(old(activeLineIdx), |ActiveLines()|)
      ensures PrevButton.Contains(mx, my) ==> activeLineIdx == PrevIndex(old(activeLineIdx), |ActiveLines()|)
      ensures !NextButton.Contains(mx, my) && !PrevButton.Contains(mx, my) ==> activeLineIdx == old(activeLineIdx)
      ensures old(LineValid()) ==> LineValid()
    {
      if NextButton.Contains(mx, my) {
        if 0 <= activeLineIdx < |target.axes[activeAxesIdx].lines| {
          NavigationInRange(activeLineIdx, |target.axes[activeAxesIdx].lines|);
        }
        activeLineIdx := NextIndex(activeLineIdx, |target.axes[activeAxesIdx].lines|);
      }
      if PrevButton.Contains(mx, my) {
        activeLineIdx := activeLineIdx - 1;
        if activeLineIdx < 0 {
          activeLineIdx := |target.axes[activeAxesIdx].lines| - 1;
        }
      }
    }

    /**
     * Motion during a drag: the mouse x is clamped into the track, the
     * handle is centred on it, the slider value is its fraction of the
     * track and the active series gets thickness `1 + 9 * value`.
     */
    method Drag(x: real)
      requires target.Valid() && LineValid()
      modifies this`sliderValue, this`handleX, target.axes`lines
      ensures sliderValue == SliderValue(x) && handleX == Clamp(x) - HandleWidth / 2.0
      ensures ActiveLines() == old(ActiveLines())[activeLineIdx := old(ActiveLines())[activeLineIdx].(thickness := Thickness(SliderValue(x)))]
      ensures forall k :: 0 <= k < |target.axes| && k != activeAxesIdx ==> target.axes[k].lines == old(target.axes[k].lines)
    {
      var mx := Clamp(x);
      handleX := mx - HandleWidth / 2.0;
      sliderValue := (mx - Track.x) / Track.w;
      var ax := target.axes[activeAxesIdx];
      ax.lines := ax.lines[activeLineIdx := ax.lines[activeLineIdx].(thickness := 1.0 + sliderValue * 9.0)];
    }

    /** The swatch loop of a click: every swatch under the mouse recolours the active series. */
    method RecolourActive(mx: real, my: real)
      requires target.Valid() && LineValid()
      modifies target.axes`lines
      ensures forall k :: 0 <= k < |target.axes| && k != activeAxesIdx ==>
        target.axes[k].lines == old(target.axes[k].lines)
      ensures SwatchHit(|Swatches|, mx, my).Some? ==>
        ActiveLines() == Recoloured(old(ActiveLines()), activeLineIdx, Swatches[SwatchHit(|Swatches|, mx, my).value].color)
      ensures SwatchHit(|Swatches|, mx, my).None? ==> ActiveLines() == old(ActiveLines())
    {
      var ax := target.axes[activeAxesIdx];
      for i := 0 to |Swatches|
        invariant forall k :: 0 <= k < |target.axes| && k != activeAxesIdx ==>
          target.axes[k].lines == old(target.axes[k].lines)
        invariant SwatchHit(i, mx, my).Some? ==>
          ax.lines == Recoloured(old(ax.lines), activeLineIdx, Swatches[SwatchHit(i, mx, my).value].color)
        invariant SwatchHit(i, mx, my).None? ==> ax.lines == old(ax.lines)
      {
        if Swatches[i].rect.Contains(mx, my) {
          ax.lines := ax.lines[activeLineIdx := ax.lines[activeLineIdx].(color := Swatches[i].color)];
        }
      }
    }

    /** The style loop of a click: every style button under the mouse restyles the active series, if there are series. */
    method RestyleActive(mx: real, my: real)
      requires target.Valid() && AxesValid() && (|ActiveLines()| > 0 ==> LineValid())
      modifies target.axes`lines
      ensures forall k :: 0 <= k < |target.axes| && k != activeAxesIdx ==>
        target.axes[k].lines == old(target.axes[k].lines)
      ensures StyleHit(|StyleButtons|, mx, my).Some? && |old(ActiveLines())| > 0 ==>
        ActiveLines() == Restyled(old(ActiveLines()), activeLineIdx,
          StyleOfAction(StyleButtons[StyleHit(|StyleButtons|, mx, my).value].actionId))
      ensures StyleHit(|StyleButtons|, mx, my).None? || |old(ActiveLines())| == 0 ==> ActiveLines() == old(ActiveLines())
    {
      var ax := target.axes[activeAxesIdx];
      for i := 0 to |StyleButtons|
        invariant forall k :: 0 <= k < |target.axes| && k != activeAxesIdx ==>
          target.axes[k].lines == old(target.axes[k].lines)
        invariant StyleHit(i, mx, my).Some? && |old(ax.lines)| > 0 ==>
          ax.lines == Restyled(old(ax.lines), activeLineIdx, StyleOfAction(StyleButtons[StyleHit(i, mx, my).value].actionId))
        invariant StyleHit(i, mx, my).None? || |old(ax.lines)| == 0 ==> ax.lines == old(ax.lines)
      {
        if StyleButtons[i].rect.Contains(mx, my) {
          if |ax.lines| > 0 {
            ax.lines := ax.lines[activeLineIdx := ax.lines[activeLineIdx].(style := StyleOfAction(StyleButtons[i].actionId))];
          }
        }
      }
    }
  }

  /** A click hits at most one swatch and at most one style button, so "the last one hit" is "the one hit". */
  lemma HitsUnique(x: real, y: real)
    ensures forall j :: 0 <= j < |Swatches| && Swatches[j].rect.Contains(x, y) ==> SwatchHit(|Swatches|, x, y) == Some(j)
    ensures forall m :: 0 <= m < |StyleButtons| && StyleButtons[m].rect.Contains(x, y) ==> StyleHit(|StyleButtons|, x, y) == Some(m)
  {
  }

  /** A click on a swatch or a style button is on no other widget that affects the series. */
  lemma ExclusiveHits(x: real, y: real)
    ensures OnSwatch(x, y) ==> !NextButton.Contains(x, y) && !PrevButton.Contains(x, y) && !OnStyleButton(x, y)
    ensures OnStyleButton(x, y) ==> !NextButton.Contains(x, y) && !PrevButton.Contains(x, y)
  {
  }
}
