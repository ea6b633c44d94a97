/**
 * Shared data model of the plotting library: the value types that the
 * Axes, the Figure, the toolbar and the renderer pass around.
 * Floating-point coordinates are idealised as `real`.
 */
module Types {

  datatype Option<T> = None | Some(value: T)

  /** An 8-bit colour channel. */
  newtype byte = x: int | 0 <= x < 256

  datatype Color = Color(r: byte, g: byte, b: byte, a: byte)

  datatype Point = Point(x: real, y: real)

  /** A screen rectangle: origin at the top-left corner, y grows downwards. */
  datatype Rect = Rect(x: real, y: real, w: real, h: real) {

    /** The closed hit test used for every toolbar widget: edges count as inside. */
    predicate Contains(px: real, py: real) {
      x <= px <= x + w && y <= py <= y + h
    }

    /** `inner` lies inside this rectangle, not touching any of its edges. */
    predicate StrictlyContains(inner: Rect) {
      x < inner.x && inner.x + inner.w < x + w &&
      y < inner.y && inner.y + inner.h < y + h
    }
  }

  /** Two rectangles share no point: one lies wholly left of, or wholly above, the other. */
  predicate Disjoint(a: Rect, b: Rect) {
    a.x + a.w < b.x || b.x + b.w < a.x || a.y + a.h < b.y || b.y + b.h < a.y
  }

  datatype ProjectionType = Projection2D | Projection3D

  datatype LineStyle = Solid | Dashed | Dotted

  datatype PlotType = PlotLine | PlotScatter

  /**
   * One plotted dataset. As in the library, a series keeps the caller's
   * sample arrays together with the count it was given; only the first
   * `count` samples are plotted.
   */
  datatype Series = Series(
    x: seq<real>,
    y: seq<real>,
    z: seq<real>,
    count: int,
    color: Color,
    kind: PlotType,
    style: LineStyle,
    markerSize: real,
    thickness: real,
    name: string)  // the label shown in the legend

  /** The sentinel data limits of an Axes that has no data yet (1e38). */
  const Huge: real := 100000000000000000000000000000000000000.0

  const DefaultLabel: string := "Series"

  /** Capacity of a series label, not counting the terminating NUL. */
  const LabelCapacity: nat := 31

  /** The series every 2D `plot` call appends: a solid line of thickness 2. */
  function NewLine(x: seq<real>, y: seq<real>, count: int, color: Color): Series {
    Series(x, y, [], count, color, PlotLine, Solid, 0.0, 2.0, DefaultLabel)
  }

  /** The samples a series actually draws: the first `count` of them. */
  function Samples(s: seq<real>, count: int): seq<real>
    requires count <= |s|
  {
    if count <= 0 then [] else s[..count]
  }

  /** What `strncpy(label, name, 31)` leaves in a zero-terminated 32-byte label. */
  function Truncated(name: string): (r: string)
    ensures |r| <= LabelCapacity && |r| <= |name|
    ensures r == name[..|r|]
    ensures |name| <= LabelCapacity ==> r == name
    ensures |name| > LabelCapacity ==> |r| == LabelCapacity
  {
    if |name| <= LabelCapacity then name else name[..LabelCapacity]
  }

  /** Multiplying by a non-negative factor keeps an inequality. */
  lemma MulMono(a: real, b: real, k: real)
    requires a <= b && k >= 0.0
    ensures a * k <= b * k
  {
  }
}
