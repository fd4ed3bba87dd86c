// What a spider web chart view draws inside its fixed 200 x 200 frame: the
// grid, the data plot and one label per category, each label pushed out
// beyond the outer ring.

module ChartScene {
  import opened Geometry
  import opened RadarChartGrid
  import opened RadarChartDataPlot

  /** A colour; one chosen by the user is an opaque identifier. */
  datatype Color = Gray | Blue | Picked(id: nat)

  /** The number of rings a view draws unless told otherwise. */
  const DefaultDivisions: int := 4

  /** Both views fix their frame to 200 x 200 points. */
  const ChartFrame: Rect := Rect(200.0, 200.0)

  /** Labels are placed on a circle of this radius around the centre. */
  const LabelRadius: real := 110.0

  /** A category name and the offset of its text from the chart centre. */
  datatype Label = Label(text: string, offset: Point)

  /** The layers of the view's ZStack, bottom to top. */
  datatype Scene = Scene(grid: Path, gridColor: Color,
                         plot: Path, plotFillColor: Color, plotStrokeColor: Color,
                         labels: seq<Label>)

  /** The offset of label `index`: along the grid's direction for that index,
      at the label radius. */
  function LabelOffset(index: int, count: int): (offset: Point)
    ensures offset.OnSpoke? && offset.index == index && offset.count == count
    ensures DistanceFromCenter(offset) == LabelRadius
  {
    OnSpoke(index, count, LabelRadius)
  }

  /** One label per category, in order, among `count` categories. */
  function Labels(categories: seq<string>, count: int): (labels: seq<Label>)
    ensures |labels| == |categories|
    ensures forall i :: 0 <= i < |categories| ==> labels[i] == Label(categories[i], LabelOffset(i, count))
  {
    if categories == [] then []
    else
      var front := Labels(categories[..|categories| - 1], count);
      var labels := front + [Label(categories[|categories| - 1], LabelOffset(|categories| - 1, count))];
      assert forall i :: 0 <= i < |categories| - 1 ==> labels[i] == Label(categories[i], LabelOffset(i, count));
      labels
  }

  /** The body shared by both views: the grid and the plot for the categories'
      count, drawn in the fixed frame, and a label per category. The grid's
      ranges trap when there are no categories or no divisions. */
  function Compose(values: seq<real>, categories: seq<string>, divisions: int,
                   gridColor: Color, plotFillColor: Color, plotStrokeColor: Color): Scene
    requires |categories| >= 1 && divisions >= 1
  {
    var count := |categories|;
    var radius := RadiusOf(ChartFrame);
    Scene(Grid(count, divisions, radius), gridColor,
          DataPlot(values, count, radius), plotFillColor, plotStrokeColor,
          Labels(categories, count))
  }

  /** The composed scene: a grid of `divisions` rings over `|categories|`
      spokes at radius 100; a plot that is empty exactly when the values do
      not match the categories and is otherwise the closed polygon through the
      scaled values; one label per category, with its name as text, on the
      direction of its spoke and farther out (110) than any ring; the colours
      passed through to their layers. */
  lemma ComposeLayout(values: seq<real>, categories: seq<string>, divisions: int,
                      gridColor: Color, plotFillColor: Color, plotStrokeColor: Color)
    requires |categories| >= 1 && divisions >= 1
    ensures var s := Compose(values, categories, divisions, gridColor, plotFillColor, plotStrokeColor);
      var n := |categories|;
      RadiusOf(ChartFrame) == 100.0 &&
      s.grid == Grid(n, divisions, 100.0) &&
      |s.grid| == divisions * (n + 1) + 2 * n &&
      (s.plot == [] <==> |values| != n) &&
      (|values| == n ==> IsClosedPolygonThrough(s.plot, PlotVertices(values, n, 100.0))) &&
      |s.labels| == n &&
      (forall i :: 0 <= i < n ==>
         s.labels[i].text == categories[i] &&
         SameRay(s.labels[i].offset, OnSpoke(i, n, 100.0)) &&
         DistanceFromCenter(s.labels[i].offset) > 100.0) &&
      s.gridColor == gridColor && s.plotFillColor == plotFillColor && s.plotStrokeColor == plotStrokeColor
  {
    var s := Compose(values, categories, divisions, gridColor, plotFillColor, plotStrokeColor);
    ComposeGrid(|categories|, divisions);
    ComposePlot(values, |categories|);
    ComposeLabels(categories);
  }

  lemma ComposeGrid(n: int, divisions: int)
    requires n >= 1 && divisions >= 1
    ensures RadiusOf(ChartFrame) == 100.0
    ensures |Grid(n, divisions, 100.0)| == divisions * (n + 1) + 2 * n
  {
    GridSpokes(n, divisions, 100.0);
  }

  lemma ComposePlot(values: seq<real>, n: int)
    requires n >= 1
    ensures DataPlot(values, n, 100.0) == [] <==> |values| != n
    ensures |values| == n ==> IsClosedPolygonThrough(DataPlot(values, n, 100.0), PlotVertices(values, n, 100.0))
  {
    DataPlotEmptyIff(values, n, 100.0);
    if |values| == n {
      DataPlotShape(values, n, 100.0);
    }
  }

  lemma ComposeLabels(categories: seq<string>)
    ensures forall i :: 0 <= i < |categories| ==>
      Labels(categories, |categories|)[i].text == categories[i] &&
      SameRay(Labels(categories, |categories|)[i].offset, OnSpoke(i, |categories|, 100.0)) &&
      DistanceFromCenter(Labels(categories, |categories|)[i].offset) > 100.0
  {
  }

  /** Every ring of a chart drawn in the frame lies within radius 100, so the
      labels at radius 110 never overlap the web. */
  lemma LabelsOutsideRings(divisions: int, i: int)
    requires divisions >= 1 && 1 <= i <= divisions
    ensures 0.0 < RingRadius(RadiusOf(ChartFrame), i, divisions) <= RadiusOf(ChartFrame) < LabelRadius
  {
    var d := divisions as real;
    assert RingRadius(100.0, i, divisions) * d == 100.0 * i as real;
    assert 100.0 * i as real <= 100.0 * d;
  }
}
