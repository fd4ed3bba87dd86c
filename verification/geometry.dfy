// Abstract geometry shared by the radar chart's shapes: symbolic points on
// the chart's spokes, path commands, the drawing rectangle, and the closed
// polygon that both the grid rings and the data plot are made of.

module Geometry {

  /** A point of a radar chart, relative to the centre of the drawing rectangle.
      `OnSpoke(index, count, r)` stands for the point at distance `r` from the
      centre in direction `index * (2π / count) - π/2`, that is
      `center + r * (cos θ, sin θ)`; the trigonometry is kept symbolic. */
  datatype Point = Center | OnSpoke(index: int, count: int, r: real)

  /** The three path-building calls the shapes use: move(to:), addLine(to:), closeSubpath(). */
  datatype PathCommand = Move(to: Point) | Line(to: Point) | Close

  type Path = seq<PathCommand>

  datatype Vec = Vec(x: real, y: real)

  /** The rectangle a shape is asked to fill (only its size matters). */
  datatype Rect = Rect(width: real, height: real)

  /** The centre of the rectangle, against which every `Point` is resolved. */
  function CenterOf(rect: Rect): (c: Vec)
    ensures c.x + c.x == rect.width && c.y + c.y == rect.height
  {
    Vec(rect.width / 2.0, rect.height / 2.0)
  }

  /** The chart radius: half the shorter side, so the chart fits the rectangle. */
  function RadiusOf(rect: Rect): (r: real)
    ensures r + r <= rect.width && r + r <= rect.height
    ensures r + r == rect.width || r + r == rect.height
  {
    (if rect.width <= rect.height then rect.width else rect.height) / 2.0
  }

  /** The disc of the chart radius around the centre lies inside the rectangle,
      and touches two of its opposite sides. */
  lemma ChartDiscFitsRect(rect: Rect)
    ensures var c, r := CenterOf(rect), RadiusOf(rect);
      0.0 <= c.x - r && c.x + r <= rect.width &&
      0.0 <= c.y - r && c.y + r <= rect.height &&
      ((c.x - r == 0.0 && c.x + r == rect.width) || (c.y - r == 0.0 && c.y + r == rect.height))
  {
  }

  /** The direction of spoke `index` among `count`, as a fraction of a clockwise
      turn starting at 12 o'clock: the angle in radians is `2π * turns - π/2`. */
  function AngleTurns(index: int, count: int): real
    requires count >= 1
  {
    index as real / count as real
  }

  /** Spoke 0 points straight up and consecutive spokes are `1/count` of a turn apart. */
  lemma SpokeAngleSteps(count: int, i: int)
    requires count >= 1
    ensures AngleTurns(0, count) == 0.0
    ensures AngleTurns(i + 1, count) - AngleTurns(i, count) == 1.0 / count as real
  {
  }

  /** The spokes of one chart lie within a single turn in index order, so no
      two of them point the same way. */
  lemma SpokeAnglesOrdered(count: int, i: int, k: int)
    requires count >= 1 && 0 <= i < k < count
    ensures 0.0 <= AngleTurns(i, count) < AngleTurns(k, count) < 1.0
  {
    var n := count as real;
    DivideMonotone(0.0, i as real, n);
    DivideMonotone(i as real, k as real, n);
    DivideMonotone(k as real, n, n);
  }

  lemma DivideMonotone(x: real, y: real, n: real)
    requires n > 0.0 && x <= y
    ensures x / n <= y / n
    ensures x < y ==> x / n < y / n
  {
    var d := y / n - x / n;
    assert d * n == y - x;
    SignOfProduct(d, n);
  }

  lemma SignOfProduct(d: real, n: real)
    requires n > 0.0
    ensures d * n >= 0.0 ==> d >= 0.0
    ensures d * n > 0.0 ==> d > 0.0
  {
    if d < 0.0 {
      assert d * n < 0.0;
    } else if d == 0.0 {
      assert d * n == 0.0;
    }
  }

  /** The distance of a point from the centre; `(cos θ, sin θ)` is a unit vector. */
  function DistanceFromCenter(p: Point): (d: real)
    ensures d >= 0.0
    ensures p.Center? ==> d == 0.0
    ensures p.OnSpoke? ==> d == p.r || d == -p.r
  {
    match p
    case Center => 0.0
    case OnSpoke(_, _, r) => if r < 0.0 then -r else r
  }

  /** The point coincides with the centre of the chart. */
  predicate AtCenter(p: Point) {
    DistanceFromCenter(p) == 0.0
  }

  /** `p` and `q` are spoke points with the same angle term. They lie on one
      line through the centre, on the same side only when their distances
      `r` have the same sign. */
  predicate SameAngle(p: Point, q: Point) {
    p.OnSpoke? && q.OnSpoke? && p.count >= 1 && q.count >= 1 &&
    AngleTurns(p.index, p.count) == AngleTurns(q.index, q.count)
  }

  /** `p` and `q` lie on the same ray leaving the centre. */
  predicate SameRay(p: Point, q: Point) {
    SameAngle(p, q) && p.r > 0.0 && q.r > 0.0
  }

  /** `p` lies on the ray opposite to the one `q` lies on: a negative
      distance along `q`'s direction. */
  predicate OppositeRay(p: Point, q: Point) {
    SameAngle(p, q) && p.r < 0.0 && q.r > 0.0
  }

  /** `addLine(to:)` through each of `vs` in order. */
  function LinesTo(vs: seq<Point>): Path
  {
    seq(|vs|, k requires 0 <= k < |vs| => Line(vs[k]))
  }

  /** Adding a line to vertex `j` extends the lines to vertices `1..j-1`. */
  lemma LinesToStep(vs: seq<Point>, j: int)
    requires 1 <= j < |vs|
    ensures LinesTo(vs[1..j + 1]) == LinesTo(vs[1..j]) + [Line(vs[j])]
  {
    LinesToShape(vs[1..j + 1]);
    LinesToShape(vs[1..j]);
  }

  /** One closed subpath through the vertices `vs`: move to the first, add a
      line to each of the others in order, close back to the first. */
  function Polygon(vs: seq<Point>): (p: Path)
    requires |vs| >= 1
  {
    [Move(vs[0])] + LinesTo(vs[1..]) + [Close]
  }

  /** What it means for `p` to be the closed polygon through `vs`, command by command. */
  predicate IsClosedPolygonThrough(p: Path, vs: seq<Point>) {
    |vs| >= 1 && |p| == |vs| + 1 &&
    p[0] == Move(vs[0]) &&
    (forall k :: 1 <= k < |vs| ==> p[k] == Line(vs[k])) &&
    p[|vs|] == Close
  }

  lemma LinesToShape(vs: seq<Point>)
    ensures |LinesTo(vs)| == |vs|
    ensures forall k :: 0 <= k < |vs| ==> LinesTo(vs)[k] == Line(vs[k])
  {
  }

  /** `Polygon(vs)` is the closed polygon through `vs`, and the only one:
      a path with exactly one `Move`, `|vs| - 1` lines and one `Close`. */
  lemma {:induction false} PolygonCharacterized(p: Path, vs: seq<Point>)
    requires |vs| >= 1
    ensures IsClosedPolygonThrough(Polygon(vs), vs)
    ensures IsClosedPolygonThrough(p, vs) <==> p == Polygon(vs)
  {
    LinesToShape(vs[1..]);
    var q := Polygon(vs);
    assert |q| == |vs| + 1;
    forall k | 1 <= k < |vs|
      ensures q[k] == Line(vs[k])
    {
      assert q[k] == LinesTo(vs[1..])[k - 1];
    }
    if IsClosedPolygonThrough(p, vs) {
      assert forall k :: 0 <= k < |p| ==> p[k] == q[k];
    }
  }
}
