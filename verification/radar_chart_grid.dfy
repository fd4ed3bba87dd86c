// The background web of a radar chart: `divisions` concentric closed
// polygons, one vertex per category, followed by one spoke per category.

module RadarChartGrid {
  import opened Geometry

  /** Radius of ring `i` of `divisions`: an equal share of the chart radius per ring. */
  function RingRadius(radius: real, i: int, divisions: int): real
    requires divisions >= 1
  {
    radius * i as real / divisions as real
  }

  /** One vertex per category on the circle of radius `r`, in index order. */
  function SpokeVertices(count: int, r: real): (vs: seq<Point>)
    requires count >= 0
    ensures |vs| == count
    ensures forall j :: 0 <= j < count ==> vs[j] == OnSpoke(j, count, r)
  {
    seq(count, j requires 0 <= j < count => OnSpoke(j, count, r))
  }

  /** The closed polygon through the `count` vertices at radius `r`. */
  function Ring(count: int, r: real): Path
    requires count >= 1
  {
    Polygon(SpokeVertices(count, r))
  }

  /** Rings 1 to `k`, innermost first. */
  function Rings(count: int, divisions: int, radius: real, k: nat): Path
    requires count >= 1 && divisions >= 1
  {
    if k == 0 then []
    else Rings(count, divisions, radius, k - 1) + Ring(count, RingRadius(radius, k, divisions))
  }

  /** Spokes 0 to `k - 1`: a move to the centre and a line out to the full radius. */
  function Spokes(count: int, radius: real, k: nat): Path
  {
    if k == 0 then []
    else Spokes(count, radius, k - 1) + [Move(Center), Line(OnSpoke(k - 1, count, radius))]
  }

  /** The whole grid: every ring, then every spoke. */
  function Grid(count: int, divisions: int, radius: real): Path
    requires count >= 1 && divisions >= 1
  {
    Rings(count, divisions, radius, divisions) + Spokes(count, radius, count)
  }

  /** The grid shape's path(in:), built by appending commands as the source's loops do.
      Both counts must be positive: otherwise the source's ranges `1...divisions`
      and `1..<numberOfCategories` are malformed and trap. */
  method GridPath(numberOfCategories: int, divisions: int, rect: Rect) returns (path: Path)
    requires numberOfCategories >= 1 && divisions >= 1
    ensures path == Grid(numberOfCategories, divisions, RadiusOf(rect))
  {
    var n := numberOfCategories;
    var radius := RadiusOf(rect);
    path := [];
    for i := 1 to divisions + 1
      invariant path == Rings(n, divisions, radius, i - 1)
    {
      var currentRadius := RingRadius(radius, i, divisions);
      ghost var before, vs := path, SpokeVertices(n, currentRadius);
      path := path + [Move(OnSpoke(0, n, currentRadius))];
      for j := 1 to n
        invariant path == before + [Move(vs[0])] + LinesTo(vs[1..j])
      {
        LinesToStep(vs, j);
        path := path + [Line(OnSpoke(j, n, currentRadius))];
      }
      RingsStep(n, divisions, radius, i, before, path);
      path := path + [Close];
    }
    for i := 0 to n
      invariant path == Rings(n, divisions, radius, divisions) + Spokes(n, radius, i)
    {
      path := path + [Move(Center), Line(OnSpoke(i, n, radius))];
    }
  }

  /** Closing the subpath built by the inner loop of `GridPath` completes ring `i`. */
  lemma RingsStep(count: int, divisions: int, radius: real, i: nat, before: Path, path: Path)
    requires count >= 1 && divisions >= 1 && i >= 1
    requires before == Rings(count, divisions, radius, i - 1)
    requires var vs := SpokeVertices(count, RingRadius(radius, i, divisions));
      path == before + [Move(vs[0])] + LinesTo(vs[1..count])
    ensures path + [Close] == Rings(count, divisions, radius, i)
  {
    var vs := SpokeVertices(count, RingRadius(radius, i, divisions));
    assert vs[1..count] == vs[1..];
  }

  /** The outermost ring has the chart radius itself, whatever the radius and
      however many rings there are. */
  lemma OuterRingRadius(radius: real, divisions: int)
    requires divisions >= 1
    ensures RingRadius(radius, divisions, divisions) == radius
  {
    var d := divisions as real;
    assert RingRadius(radius, divisions, divisions) * d == radius * d;
  }

  /** For a positive radius, every ring lies strictly outside the centre and
      within the chart radius. */
  lemma RingRadiusWithin(radius: real, divisions: int, i: int)
    requires radius > 0.0 && divisions >= 1 && 1 <= i <= divisions
    ensures 0.0 < RingRadius(radius, i, divisions) <= radius
  {
    var d := divisions as real;
    assert RingRadius(radius, i, divisions) * d == radius * i as real;
    assert 0.0 < radius * i as real <= radius * d;
  }

  /** Ring radii grow strictly from the inside out; the outermost ring is the
      chart radius itself and the innermost one is not the centre. */
  lemma {:induction false} RingRadii(radius: real, divisions: int, i: int, k: int)
    requires radius > 0.0 && divisions >= 1 && 1 <= i < k <= divisions
    ensures 0.0 < RingRadius(radius, i, divisions) < RingRadius(radius, k, divisions) <= radius
    ensures RingRadius(radius, divisions, divisions) == radius
  {
    var d := divisions as real;
    assert radius * i as real < radius * k as real;
    assert RingRadius(radius, i, divisions) * d < RingRadius(radius, k, divisions) * d;
    RingRadiusWithin(radius, divisions, i);
    RingRadiusWithin(radius, divisions, k);
    OuterRingRadius(radius, divisions);
  }

  lemma SliceOfPrefix(a: Path, b: Path, lo: int, hi: int)
    requires 0 <= lo <= hi <= |a|
    ensures (a + b)[lo..hi] == a[lo..hi]
  {
  }

  lemma SliceOfSuffix(a: Path, b: Path)
    ensures (a + b)[|a|..|a| + |b|] == b
  {
  }

  /** Where block `i` of commands ends when every block is `w` commands long. */
  function BlockEnd(i: nat, w: nat): nat
  {
    if i == 0 then 0 else BlockEnd(i - 1, w) + w
  }

  lemma {:induction false} BlockEndIsProduct(i: nat, w: nat)
    ensures BlockEnd(i, w) == i * w
  {
    if i > 0 {
      BlockEndIsProduct(i - 1, w);
    }
  }

  lemma {:induction false} BlockEndMonotone(i: nat, k: nat, w: nat)
    requires i <= k
    ensures BlockEnd(i, w) <= BlockEnd(k, w)
    decreases k
  {
    if i < k {
      BlockEndMonotone(i, k - 1, w);
    }
  }

  lemma RingLength(count: int, r: real)
    requires count >= 1
    ensures |Ring(count, r)| == count + 1
  {
    LinesToShape(SpokeVertices(count, r)[1..]);
  }

  lemma {:induction false} RingsLength(count: int, divisions: int, radius: real, k: nat)
    requires count >= 1 && divisions >= 1
    ensures |Rings(count, divisions, radius, k)| == BlockEnd(k, count + 1)
  {
    if k > 0 {
      RingsLength(count, divisions, radius, k - 1);
      RingLength(count, RingRadius(radius, k, divisions));
    }
  }

  /** The first `i` rings are a prefix of the first `k`. */
  lemma {:induction false} RingsPrefix(count: int, divisions: int, radius: real, i: nat, k: nat)
    requires count >= 1 && divisions >= 1 && i <= k
    ensures |Rings(count, divisions, radius, i)| <= |Rings(count, divisions, radius, k)|
    ensures Rings(count, divisions, radius, k)[..|Rings(count, divisions, radius, i)|] == Rings(count, divisions, radius, i)
    decreases k
  {
    if i < k {
      RingsPrefix(count, divisions, radius, i, k - 1);
      var prev := Rings(count, divisions, radius, k - 1);
      assert Rings(count, divisions, radius, k) == prev + Ring(count, RingRadius(radius, k, divisions));
    }
  }

  /** Ring `i` occupies the `i`-th block of `count + 1` commands of `Rings(k)`. */
  lemma RingsShape(count: int, divisions: int, radius: real, k: nat, i: nat)
    requires count >= 1 && divisions >= 1 && 1 <= i <= k
    ensures BlockEnd(i, count + 1) <= |Rings(count, divisions, radius, k)|
    ensures Rings(count, divisions, radius, k)[BlockEnd(i - 1, count + 1)..BlockEnd(i, count + 1)]
            == Ring(count, RingRadius(radius, i, divisions))
  {
    var all, front := Rings(count, divisions, radius, k), Rings(count, divisions, radius, i - 1);
    var upto := Rings(count, divisions, radius, i);
    RingsPrefix(count, divisions, radius, i, k);
    RingsLength(count, divisions, radius, i - 1);
    RingsLength(count, divisions, radius, i);
    var lo, hi := |front|, |upto|;
    assert upto == front + Ring(count, RingRadius(radius, i, divisions));
    assert all[lo..hi] == all[..hi][lo..hi];
    SliceOfSuffix(front, Ring(count, RingRadius(radius, i, divisions)));
  }

  lemma {:induction false} SpokesShape(count: int, radius: real, k: nat)
    ensures |Spokes(count, radius, k)| == 2 * k
    ensures forall m :: 0 <= m < k ==>
              Spokes(count, radius, k)[2 * m] == Move(Center) &&
              Spokes(count, radius, k)[2 * m + 1] == Line(OnSpoke(m, count, radius))
  {
    if k > 0 {
      SpokesShape(count, radius, k - 1);
    }
  }

  /** The grid has `divisions * (count + 1) + 2 * count` commands. Its first
      `divisions` blocks of `count + 1` commands are the rings, ring `i` being
      the closed polygon through the `count` vertices at radius `RingRadius(i)`
      in index order; then come `count` spokes, spoke `m` a move to the centre
      and a line to vertex `m` at the full radius. */
  lemma GridShape(count: int, divisions: int, radius: real)
    requires count >= 1 && divisions >= 1
    ensures |Grid(count, divisions, radius)| == divisions * (count + 1) + 2 * count
    ensures forall i :: 1 <= i <= divisions ==>
              0 <= (i - 1) * (count + 1) <= (i - 1) * (count + 1) + count + 1 <= |Grid(count, divisions, radius)| &&
              IsClosedPolygonThrough(Grid(count, divisions, radius)[(i - 1) * (count + 1)..(i - 1) * (count + 1) + count + 1],
                                     SpokeVertices(count, RingRadius(radius, i, divisions)))
    ensures forall m :: 0 <= m < count ==>
              Grid(count, divisions, radius)[divisions * (count + 1) + 2 * m] == Move(Center) &&
              Grid(count, divisions, radius)[divisions * (count + 1) + 2 * m + 1] == Line(OnSpoke(m, count, radius))
  {
    GridSpokes(count, divisions, radius);
    forall i | 1 <= i <= divisions
      ensures 0 <= (i - 1) * (count + 1) <= (i - 1) * (count + 1) + count + 1 <= |Grid(count, divisions, radius)|
      ensures IsClosedPolygonThrough(Grid(count, divisions, radius)[(i - 1) * (count + 1)..(i - 1) * (count + 1) + count + 1],
                                     SpokeVertices(count, RingRadius(radius, i, divisions)))
    {
      GridRing(count, divisions, radius, i);
    }
  }

  lemma GridSpokes(count: int, divisions: int, radius: real)
    requires count >= 1 && divisions >= 1
    ensures |Grid(count, divisions, radius)| == divisions * (count + 1) + 2 * count
    ensures forall m :: 0 <= m < count ==>
              Grid(count, divisions, radius)[divisions * (count + 1) + 2 * m] == Move(Center) &&
              Grid(count, divisions, radius)[divisions * (count + 1) + 2 * m + 1] == Line(OnSpoke(m, count, radius))
  {
    var rings := Rings(count, divisions, radius, divisions);
    var spokes := Spokes(count, radius, count);
    var g := Grid(count, divisions, radius);
    RingsLength(count, divisions, radius, divisions);
    BlockEndIsProduct(divisions, count + 1);
    SpokesShape(count, radius, count);
    forall m | 0 <= m < count
      ensures g[|rings| + 2 * m] == Move(Center)
      ensures g[|rings| + 2 * m + 1] == Line(OnSpoke(m, count, radius))
    {
      assert g[|rings| + 2 * m] == spokes[2 * m];
      assert g[|rings| + 2 * m + 1] == spokes[2 * m + 1];
    }
  }

  lemma GridRing(count: int, divisions: int, radius: real, i: nat)
    requires count >= 1 && divisions >= 1 && 1 <= i <= divisions
    ensures 0 <= (i - 1) * (count + 1) <= (i - 1) * (count + 1) + count + 1 <= |Grid(count, divisions, radius)|
    ensures IsClosedPolygonThrough(Grid(count, divisions, radius)[(i - 1) * (count + 1)..(i - 1) * (count + 1) + count + 1],
                                   SpokeVertices(count, RingRadius(radius, i, divisions)))
  {
    var w := count + 1;
    var rings := Rings(count, divisions, radius, divisions);
    var g := Grid(count, divisions, radius);
    RingsShape(count, divisions, radius, divisions, i);
    BlockEndIsProduct(i - 1, w);
    BlockEndIsProduct(i, w);
    var lo, hi := BlockEnd(i - 1, w), BlockEnd(i, w);
    assert lo == (i - 1) * w && hi == lo + w;
    SliceOfPrefix(rings, Spokes(count, radius, count), lo, hi);
    var vs := SpokeVertices(count, RingRadius(radius, i, divisions));
    PolygonCharacterized(Polygon(vs), vs);
    assert g[lo..hi] == Polygon(vs);
  }

  /** Vertex `j` of every ring has the angle of spoke `j`, so category 0 is at
      the top on every ring. For a positive radius the vertex lies on spoke
      `j` itself, between the centre and the spoke's end. */
  lemma RingsAlignWithSpokes(count: int, divisions: int, radius: real, i: int, j: int)
    requires count >= 1 && divisions >= 1 && 1 <= i <= divisions && 0 <= j < count
    ensures SameAngle(SpokeVertices(count, RingRadius(radius, i, divisions))[j], OnSpoke(j, count, radius))
    ensures AngleTurns(SpokeVertices(count, RingRadius(radius, i, divisions))[0].index, count) == 0.0
    ensures radius > 0.0 ==>
              SameRay(SpokeVertices(count, RingRadius(radius, i, divisions))[j], OnSpoke(j, count, radius)) &&
              0.0 < DistanceFromCenter(SpokeVertices(count, RingRadius(radius, i, divisions))[j]) <= radius
  {
    if radius > 0.0 {
      RingRadiusWithin(radius, divisions, i);
    }
  }
}
