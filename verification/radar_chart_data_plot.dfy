// The data polygon of a radar chart: one closed polygon whose vertex `i`
// lies on spoke `i` at `radius * data[i]`, or nothing at all when the
// values do not match the categories.

module RadarChartDataPlot {
  import opened Geometry
  import opened RadarChartGrid

  /** Vertex `i` lies on spoke `i` of `count`, scaled by the value `data[i]`. */
  function PlotVertices(data: seq<real>, count: int, radius: real): (vs: seq<Point>)
    ensures |vs| == |data|
    ensures forall i :: 0 <= i < |data| ==> vs[i] == OnSpoke(i, count, radius * data[i])
  {
    if data == [] then []
    else
      var front := PlotVertices(data[..|data| - 1], count, radius);
      var vs := front + [OnSpoke(|data| - 1, count, radius * data[|data| - 1])];
      assert forall i :: 0 <= i < |data| - 1 ==> vs[i] == OnSpoke(i, count, radius * data[i]);
      assert vs[|data| - 1] == OnSpoke(|data| - 1, count, radius * data[|data| - 1]);
      vs
  }

  /** The plot: empty unless there is one value per category. */
  function DataPlot(data: seq<real>, count: int, radius: real): Path
  {
    if |data| == 0 || |data| != count then []
    else Polygon(PlotVertices(data, count, radius))
  }

  /** The plot shape's path(in:), built by appending commands as the source's loop does. */
  method DataPlotPath(data: seq<real>, numberOfCategories: int, rect: Rect) returns (path: Path)
    ensures path == DataPlot(data, numberOfCategories, RadiusOf(rect))
  {
    path := [];
    var radius := RadiusOf(rect);
    if !(|data| != 0 && |data| == numberOfCategories) {
      return;
    }
    var n := numberOfCategories;
    ghost var vs := PlotVertices(data, n, radius);
    path := path + [Move(OnSpoke(0, n, radius * data[0]))];
    assert vs[0] == OnSpoke(0, n, radius * data[0]);
    assert LinesTo(vs[1..1]) == [];
    for i := 1 to n
      invariant path == [Move(vs[0])] + LinesTo(vs[1..i])
    {
      LinesToStep(vs, i);
      assert vs[i] == OnSpoke(i, n, radius * data[i]);
      path := path + [Line(OnSpoke(i, n, radius * data[i]))];
    }
    assert vs[1..n] == vs[1..];
    path := path + [Close];
  }

  /** The plot is empty exactly when there are no values or their number
      differs from the number of categories; a mismatch is not an error. */
  lemma DataPlotEmptyIff(data: seq<real>, count: int, radius: real)
    ensures DataPlot(data, count, radius) == [] <==> |data| == 0 || |data| != count
  {
    if |data| != 0 && |data| == count {
      var vs := PlotVertices(data, count, radius);
      PolygonCharacterized(Polygon(vs), vs);
    }
  }

  /** Otherwise it is one closed polygon of `count + 1` commands whose vertex
      `i` has spoke `i`'s angle and lies at distance `|radius * data[i]|` from
      the centre. Values outside 0..1 are used as they are: for a positive
      radius, a positive value puts the vertex on spoke `i`'s ray, a zero value
      on the centre, and a negative one on the opposite ray. */
  lemma DataPlotShape(data: seq<real>, count: int, radius: real)
    requires |data| != 0 && |data| == count
    ensures |DataPlot(data, count, radius)| == count + 1
    ensures IsClosedPolygonThrough(DataPlot(data, count, radius), PlotVertices(data, count, radius))
    ensures forall i :: 0 <= i < count ==>
              SameAngle(PlotVertices(data, count, radius)[i], OnSpoke(i, count, radius)) &&
              DistanceFromCenter(PlotVertices(data, count, radius)[i]) ==
                (if radius * data[i] < 0.0 then -(radius * data[i]) else radius * data[i])
    ensures radius > 0.0 ==> forall i :: 0 <= i < count ==>
              (data[i] > 0.0 ==> SameRay(PlotVertices(data, count, radius)[i], OnSpoke(i, count, radius))) &&
              (data[i] == 0.0 ==> AtCenter(PlotVertices(data, count, radius)[i])) &&
              (data[i] < 0.0 ==> OppositeRay(PlotVertices(data, count, radius)[i], OnSpoke(i, count, radius)))
  {
    var vs := PlotVertices(data, count, radius);
    PolygonCharacterized(Polygon(vs), vs);
    forall i | 0 <= i < count
      ensures SameAngle(vs[i], OnSpoke(i, count, radius))
      ensures DistanceFromCenter(vs[i]) == (if radius * data[i] < 0.0 then -(radius * data[i]) else radius * data[i])
      ensures radius > 0.0 ==>
                (data[i] > 0.0 ==> SameRay(vs[i], OnSpoke(i, count, radius))) &&
                (data[i] == 0.0 ==> AtCenter(vs[i])) &&
                (data[i] < 0.0 ==> OppositeRay(vs[i], OnSpoke(i, count, radius)))
    {
      VertexSide(data[i], count, radius, i);
    }
  }

  /** The side of the centre a vertex scaled by `value` falls on. */
  lemma VertexSide(value: real, count: int, radius: real, i: int)
    requires count >= 1
    ensures var v := OnSpoke(i, count, radius * value);
      SameAngle(v, OnSpoke(i, count, radius)) &&
      DistanceFromCenter(v) == (if radius * value < 0.0 then -(radius * value) else radius * value) &&
      (radius > 0.0 ==>
         (value > 0.0 ==> SameRay(v, OnSpoke(i, count, radius))) &&
         (value == 0.0 ==> AtCenter(v)) &&
         (value < 0.0 ==> OppositeRay(v, OnSpoke(i, count, radius))))
  {
  }

  /** A value of 0 puts its vertex on the centre; a value of 1 puts it on the
      grid's outermost ring, at the end of the spoke of the same index. */
  lemma DataPlotExtremes(data: seq<real>, count: int, radius: real, divisions: int, i: int)
    requires |data| == count && divisions >= 1 && 0 <= i < count
    ensures data[i] == 0.0 ==> AtCenter(PlotVertices(data, count, radius)[i])
    ensures data[i] == 1.0 ==>
              PlotVertices(data, count, radius)[i] == SpokeVertices(count, RingRadius(radius, divisions, divisions))[i] &&
              PlotVertices(data, count, radius)[i] == OnSpoke(i, count, radius)
  {
    assert RingRadius(radius, divisions, divisions) * divisions as real == radius * divisions as real;
  }
}
