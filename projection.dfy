/**
 * The orthographic 3D projection of `project_3d`, the wire-frame cage of
 * `draw_3d_box` and the camera-drag update of the event loop.
 *
 * The projection normalises each coordinate to [-1, 1], rotates about the
 * z axis by the azimuth `phi`, then about the x axis by the elevation
 * `theta`, and maps the rotated x and y onto the Axes rectangle. The
 * cosines and sines of the two angles are parameters (a `Turn`) with
 * c*c + s*s == 1 rather than being computed.
 */
module Projection {
  import opened Types

  datatype Vec3 = Vec3(x: real, y: real, z: real)

  function Norm2(v: Vec3): real {
    v.x * v.x + v.y * v.y + v.z * v.z
  }

  /** The cosine and sine of a rotation angle. */
  datatype Turn = Turn(c: real, s: real) {
    predicate Unit() {
      c * c + s * s == 1.0
    }
  }

  /** The rotation by angle zero. */
  const NoTurn: Turn := Turn(1.0, 0.0)

  /** `2 (v - lo) / (hi - lo) - 1`: the data limits map to -1 and 1. */
  function Normalize(v: real, lo: real, hi: real): real
    requires hi != lo
  {
    2.0 * (v - lo) / (hi - lo) - 1.0
  }

  /** The limits of an axis map to the faces of the cube [-1, 1]^3, and its midpoint to 0. */
  lemma NormalizeEnds(lo: real, hi: real)
    requires hi != lo
    ensures Normalize(lo, lo, hi) == -1.0 && Normalize(hi, lo, hi) == 1.0
    ensures Normalize((lo + hi) * 0.5, lo, hi) == 0.0
  {
    var d := hi - lo;
    assert 2.0 * d / d == 2.0;
    assert 2.0 * ((lo + hi) * 0.5 - lo) == d;
    assert d / d == 1.0;
  }

  /** Values within the limits normalise into [-1, 1], monotonically. */
  lemma NormalizeInRange(v: real, w: real, lo: real, hi: real)
    requires lo < hi && lo <= v <= w <= hi
    ensures -1.0 <= Normalize(v, lo, hi) <= Normalize(w, lo, hi) <= 1.0
  {
    var d := hi - lo;
    assert 2.0 * (v - lo) / d <= 2.0 * (w - lo) / d;
    assert 0.0 <= 2.0 * (v - lo) / d;
    assert 2.0 * (w - lo) / d <= 2.0 * d / d;
  }

  /** The rotation about the vertical (z) axis, then about the x axis. */
  function Rotate(n: Vec3, azimuth: Turn, elevation: Turn): Vec3 {
    var x1 := n.x * azimuth.c - n.y * azimuth.s;
    var y1 := n.x * azimuth.s + n.y * azimuth.c;
    Vec3(x1, y1 * elevation.c - n.z * elevation.s, y1 * elevation.s + n.z * elevation.c)
  }

  /** A planar rotation keeps the squared length of a vector. */
  lemma {:induction false} PlaneRotationIsometry(a: real, b: real, t: Turn)
    requires t.Unit()
    ensures (a * t.c - b * t.s) * (a * t.c - b * t.s) + (a * t.s + b * t.c) * (a * t.s + b * t.c)
         == a * a + b * b
  {
    var c, s := t.c, t.s;
    calc {
      (a * c - b * s) * (a * c - b * s) + (a * s + b * c) * (a * s + b * c);
      a * a * (c * c) + b * b * (s * s) + a * a * (s * s) + b * b * (c * c);
      a * a * (c * c + s * s) + b * b * (c * c + s * s);
    }
  }

  /** The camera rotation is a rigid motion: it keeps every point's distance from the centre. */
  lemma {:induction false} RotateIsometry(n: Vec3, azimuth: Turn, elevation: Turn)
    requires azimuth.Unit() && elevation.Unit()
    ensures Norm2(Rotate(n, azimuth, elevation)) == Norm2(n)
  {
    var x1 := n.x * azimuth.c - n.y * azimuth.s;
    var y1 := n.x * azimuth.s + n.y * azimuth.c;
    PlaneRotationIsometry(n.x, n.y, azimuth);
    PlaneRotationIsometry(y1, n.z, elevation);
  }

  /** With both angles zero the rotation leaves the point where it is. */
  lemma RotateNone(n: Vec3)
    ensures Rotate(n, NoTurn, NoTurn) == n
  {
  }

  /** Half the side of the square into which the unit cube is drawn: 0.4 of the shorter side, times the zoom. */
  function Scale(rect: Rect, zoom: real): real {
    (if rect.w < rect.h then rect.w else rect.h) * 0.4 * zoom
  }

  /** The centre of the Axes rectangle, onto which the centre of the data box is drawn. */
  function Centre(rect: Rect): Point {
    Point(rect.x + rect.w / 2.0, rect.y + rect.h / 2.0)
  }

  /** Screen position of a rotated point: the rotated z is dropped, and screen y grows downwards. */
  function ToScreen(rect: Rect, zoom: real, r: Vec3): Point {
    var c := Centre(rect);
    Point(c.x + r.x * Scale(rect, zoom), c.y - r.y * Scale(rect, zoom))
  }

  /** The limits and camera an Axes projects with. */
  datatype Camera = Camera(
    rect: Rect,
    xMin: real, xMax: real, yMin: real, yMax: real, zMin: real, zMax: real,
    azimuth: Turn, elevation: Turn, zoom: real)
  {
    /** What the projection divides by may not vanish. */
    predicate Ranges() {
      xMax != xMin && yMax != yMin && zMax != zMin
    }

    predicate Rigid() {
      azimuth.Unit() && elevation.Unit()
    }

    predicate InBox(p: Vec3) {
      xMin <= p.x <= xMax && yMin <= p.y <= yMax && zMin <= p.z <= zMax
    }
  }

  function Normalized(cam: Camera, p: Vec3): Vec3
    requires cam.Ranges()
  {
    Vec3(Normalize(p.x, cam.xMin, cam.xMax), Normalize(p.y, cam.yMin, cam.yMax),
         Normalize(p.z, cam.zMin, cam.zMax))
  }

  /** `project_3d`: the screen position of data point `p`. */
  function Project(cam: Camera, p: Vec3): Point
    requires cam.Ranges()
  {
    ToScreen(cam.rect, cam.zoom, Rotate(Normalized(cam, p), cam.azimuth, cam.elevation))
  }

  /** The centre of the data box is drawn at the centre of the Axes, whatever the camera angles. */
  lemma {:induction false} CentreProjectsToCentre(cam: Camera)
    requires cam.Ranges()
    ensures Project(cam, Vec3((cam.xMin + cam.xMax) * 0.5, (cam.yMin + cam.yMax) * 0.5,
                              (cam.zMin + cam.zMax) * 0.5)) == Centre(cam.rect)
  {
    NormalizeEnds(cam.xMin, cam.xMax);
    NormalizeEnds(cam.yMin, cam.yMax);
    NormalizeEnds(cam.zMin, cam.zMax);
  }

  /**
   * Every point of the data box is drawn within distance sqrt(3) * scale of
   * the Axes centre (the half-diagonal of the unit cube), for any rotation.
   */
  lemma {:induction false} ProjectionWithinDisc(cam: Camera, p: Vec3)
    requires cam.Rigid() && cam.xMin < cam.xMax && cam.yMin < cam.yMax && cam.zMin < cam.zMax
    requires cam.InBox(p)
    ensures var q, c, k := Project(cam, p), Centre(cam.rect), Scale(cam.rect, cam.zoom);
      (q.x - c.x) * (q.x - c.x) + (q.y - c.y) * (q.y - c.y) <= 3.0 * (k * k)
  {
    var n := Normalized(cam, p);
    NormalizeInRange(p.x, p.x, cam.xMin, cam.xMax);
    NormalizeInRange(p.y, p.y, cam.yMin, cam.yMax);
    NormalizeInRange(p.z, p.z, cam.zMin, cam.zMax);
    SquareAtMostOne(n.x);
    SquareAtMostOne(n.y);
    SquareAtMostOne(n.z);
    var r := Rotate(n, cam.azimuth, cam.elevation);
    RotateIsometry(n, cam.azimuth, cam.elevation);
    assert r.x * r.x + r.y * r.y <= 3.0;
    var k := Scale(cam.rect, cam.zoom);
    MulMono(r.x * r.x + r.y * r.y, 3.0, k * k);
    var q, c := Project(cam, p), Centre(cam.rect);
    assert q.x - c.x == r.x * k;
    assert q.y - c.y == -(r.y * k);
    assert (r.x * k) * (r.x * k) + (r.y * k) * (r.y * k) == (r.x * r.x + r.y * r.y) * (k * k);
  }

  lemma SquareAtMostOne(v: real)
    requires -1.0 <= v <= 1.0
    ensures v * v <= 1.0
  {
    if v >= 0.0 {
      MulMono(v, 1.0, v);
    } else {
      var u := -v;
      MulMono(u, 1.0, u);
      assert u * u == v * v;
    }
  }

  /** Seen from the front (both angles zero), x and y are drawn directly, y upwards. */
  lemma {:induction false} FrontView(cam: Camera, p: Vec3)
    requires cam.Ranges() && cam.azimuth == NoTurn && cam.elevation == NoTurn
    ensures Project(cam, p) == Point(
      Centre(cam.rect).x + Normalize(p.x, cam.xMin, cam.xMax) * Scale(cam.rect, cam.zoom),
      Centre(cam.rect).y - Normalize(p.y, cam.yMin, cam.yMax) * Scale(cam.rect, cam.zoom))
  {
    var n := Normalized(cam, p);
    RotateNone(n);
    assert Project(cam, p) == ToScreen(cam.rect, cam.zoom, n);
  }

  // ----- The cage -----

  /** Corner `i` of the data box takes the maximum x for i in {1, 2, 5, 6}. */
  function CornerMaxX(i: int): bool {
    i % 4 == 1 || i % 4 == 2
  }

  /** Corner `i` takes the maximum y for i in {2, 3, 6, 7}. */
  function CornerMaxY(i: int): bool {
    i % 4 == 2 || i % 4 == 3
  }

  /** The top face (maximum z) holds corners 4 to 7. */
  function CornerMaxZ(i: int): bool {
    i >= 4
  }

  /** Corner `i` of the data box of `cam`, in the order of the library's corner table. */
  function Corner(cam: Camera, i: int): Vec3 {
    Vec3(if CornerMaxX(i) then cam.xMax else cam.xMin,
         if CornerMaxY(i) then cam.yMax else cam.yMin,
         if CornerMaxZ(i) then cam.zMax else cam.zMin)
  }

  /** The three edges drawn in round `i` of the cage loop: bottom, top, vertical. */
  function RoundEdges(i: int): seq<(int, int)> {
    [(i, (i + 1) % 4), (i + 4, (i + 1) % 4 + 4), (i, i + 4)]
  }

  /** The cage edges in drawing order. */
  function CageEdges(): seq<(int, int)> {
    RoundEdges(0) + RoundEdges(1) + RoundEdges(2) + RoundEdges(3)
  }

  /** Corners `a` and `b` differ in exactly one of the three coordinates: they span an edge of the box. */
  predicate Adjacent(a: int, b: int) {
    (if CornerMaxX(a) != CornerMaxX(b) then 1 else 0) +
    (if CornerMaxY(a) != CornerMaxY(b) then 1 else 0) +
    (if CornerMaxZ(a) != CornerMaxZ(b) then 1 else 0) == 1
  }

  predicate SameEdge(e: (int, int), f: (int, int)) {
    (e.0 == f.0 && e.1 == f.1) || (e.0 == f.1 && e.1 == f.0)
  }

  /** The drawing loop's twelve lines, listed. */
  lemma CageEdgesListed()
    ensures CageEdges() == [(0, 1), (4, 5), (0, 4), (1, 2), (5, 6), (1, 5),
                            (2, 3), (6, 7), (2, 6), (3, 0), (7, 4), (3, 7)]
  {
  }

  /** Every line of the cage joins two corners that differ in exactly one coordinate. */
  lemma CageEdgesAdjacent()
    ensures |CageEdges()| == 12
    ensures forall k :: 0 <= k < 12 ==>
      0 <= CageEdges()[k].0 < 8 && 0 <= CageEdges()[k].1 < 8 && Adjacent(CageEdges()[k].0, CageEdges()[k].1)
  {
    CageEdgesListed();
  }

  /** No edge of the cage is drawn twice, in either direction. */
  lemma CageEdgesDistinct()
    ensures forall k, l :: 0 <= k < l < |CageEdges()| ==> !SameEdge(CageEdges()[k], CageEdges()[l])
  {
    CageEdgesListed();
  }

  /** Every edge of the box is drawn: each pair of adjacent corners is joined by some line of the cage. */
  lemma CageEdgesComplete(a: int, b: int)
    requires 0 <= a < b < 8 && Adjacent(a, b)
    ensures exists k :: 0 <= k < |CageEdges()| && SameEdge(CageEdges()[k], (a, b))
  {
    CageEdgesListed();
    var e := CageEdges();
    var k := if a == 0 && b == 1 then 0 else if a == 4 && b == 5 then 1
      else if a == 0 && b == 4 then 2 else if a == 1 && b == 2 then 3
      else if a == 5 && b == 6 then 4 else if a == 1 && b == 5 then 5
      else if a == 2 && b == 3 then 6 else if a == 6 && b == 7 then 7
      else if a == 2 && b == 6 then 8 else if a == 0 && b == 3 then 9
      else if a == 4 && b == 7 then 10 else 11;
    assert SameEdge(e[k], (a, b));
  }

  /** On a box with positive extent, the two corners of a cage edge differ in exactly one coordinate. */
  lemma CageEdgesAxisParallel(cam: Camera, k: int)
    requires cam.xMin < cam.xMax && cam.yMin < cam.yMax && cam.zMin < cam.zMax
    requires 0 <= k < 12
    ensures var p, q := Corner(cam, CageEdges()[k].0), Corner(cam, CageEdges()[k].1);
      (if p.x != q.x then 1 else 0) + (if p.y != q.y then 1 else 0) + (if p.z != q.z then 1 else 0) == 1
  {
    CageEdgesAdjacent();
  }

  // ----- Camera drag -----

  /** Degrees of rotation per pixel of mouse motion. */
  const Sensitivity: real := 0.5

  /** The elevation limit, in degrees, that keeps the view from flipping over. */
  const MaxElevation: real := 89.0

  /** `theta` clamped into [-89, 89]: first the upper, then the lower bound. */
  function ClampElevation(theta: real): (r: real)
    ensures -MaxElevation <= r <= MaxElevation
    ensures -MaxElevation <= theta <= MaxElevation ==> r == theta
    ensures theta > MaxElevation ==> r == MaxElevation
    ensures theta < -MaxElevation ==> r == -MaxElevation
  {
    var t := if theta > MaxElevation then MaxElevation else theta;
    if t < -MaxElevation then -MaxElevation else t
  }

  /** The camera angles after a drag by (`xrel`, `yrel`) pixels: right turns the azimuth, up raises the elevation. */
  function Dragged(phi: real, theta: real, xrel: real, yrel: real): (r: (real, real))
    ensures r.0 == phi + xrel * Sensitivity
    ensures -MaxElevation <= r.1 <= MaxElevation
  {
    (phi + xrel * Sensitivity, ClampElevation(theta - yrel * Sensitivity))
  }

  /** A drag that keeps within the limits moves the elevation by exactly half a degree per pixel. */
  lemma DragWithinLimits(phi: real, theta: real, xrel: real, yrel: real)
    requires -MaxElevation <= theta - yrel * Sensitivity <= MaxElevation
    ensures Dragged(phi, theta, xrel, yrel).1 == theta - yrel * 0.5
  {
  }
}
