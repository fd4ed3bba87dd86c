// The spider web chart view that takes a single array of data points, each
// carrying its own category name, so values and categories always agree.

module PointChartView {
  import opened Geometry
  import opened RadarChartGrid
  import opened RadarChartDataPlot
  import opened ChartScene

  /** A category and its value, meant to be normalised to 0..1. */
  datatype DataPoint = DataPoint(category: string, value: real)

  /** A series of points with its own colours; no view draws one. */
  datatype DataSet = DataSet(dataPoints: seq<DataPoint>, fillColor: Color, strokeColor: Color)

  datatype SpiderWebChartView = SpiderWebChartView(
    data: seq<DataPoint>,
    divisions: int,
    gridColor: Color,
    plotFillColor: Color,
    plotStrokeColor: Color)

  /** The category names, in the order of the points. */
  function Categories(data: seq<DataPoint>): (categories: seq<string>)
    ensures |categories| == |data|
    ensures forall i :: 0 <= i < |data| ==> categories[i] == data[i].category
  {
    seq(|data|, i requires 0 <= i < |data| => data[i].category)
  }

  /** The values, in the order of the points. */
  function Values(data: seq<DataPoint>): (values: seq<real>)
    ensures |values| == |data|
    ensures forall i :: 0 <= i < |data| ==> values[i] == data[i].value
  {
    seq(|data|, i requires 0 <= i < |data| => data[i].value)
  }

  /** The initialiser with every defaulted argument left out. */
  function Init(data: seq<DataPoint>): SpiderWebChartView
  {
    SpiderWebChartView(data, DefaultDivisions, Gray, Blue, Blue)
  }

  /** The view's body. The grid's ranges trap without points or divisions. */
  function Body(view: SpiderWebChartView): Scene
    requires |view.data| >= 1 && view.divisions >= 1
  {
    Compose(Values(view.data), Categories(view.data), view.divisions,
            view.gridColor, view.plotFillColor, view.plotStrokeColor)
  }

  /** Because values and categories come from the same points, the plot for
      them is non-empty exactly when there is at least one point. */
  lemma PlotNonEmptyIffData(data: seq<DataPoint>, radius: real)
    ensures DataPlot(Values(data), |Categories(data)|, radius) != [] <==> |data| >= 1
  {
    DataPlotEmptyIff(Values(data), |Categories(data)|, radius);
  }

  /** The grid has one spoke per point; the plot is always drawn, as the
      closed polygon whose vertex `i` is at `100 * data[i].value` on spoke
      `i`; label `i` reads `data[i].category` and sits outside the outer ring
      on spoke `i`. */
  lemma BodyLayout(view: SpiderWebChartView)
    requires |view.data| >= 1 && view.divisions >= 1
    ensures Body(view).grid == Grid(|view.data|, view.divisions, 100.0)
    ensures |Body(view).grid| == view.divisions * (|view.data| + 1) + 2 * |view.data|
    ensures |Body(view).plot| == |view.data| + 1
    ensures IsClosedPolygonThrough(Body(view).plot, PlotVertices(Values(view.data), |view.data|, 100.0))
    ensures forall i :: 0 <= i < |view.data| ==>
              PlotVertices(Values(view.data), |view.data|, 100.0)[i] == OnSpoke(i, |view.data|, 100.0 * view.data[i].value)
    ensures |Body(view).labels| == |view.data|
    ensures forall i :: 0 <= i < |view.data| ==>
              Body(view).labels[i].text == view.data[i].category &&
              SameRay(Body(view).labels[i].offset, OnSpoke(i, |view.data|, 100.0)) &&
              DistanceFromCenter(Body(view).labels[i].offset) > 100.0
  {
    var n, values, categories := |view.data|, Values(view.data), Categories(view.data);
    var s := Body(view);
    ComposeGrid(n, view.divisions);
    assert s.grid == Grid(n, view.divisions, 100.0);
    ComposePlot(values, n);
    DataPlotShape(values, n, 100.0);
    assert s.plot == DataPlot(values, n, 100.0);
    ComposeLabels(categories);
    assert s.labels == Labels(categories, n);
  }

  /** The initialiser keeps the points as given; by default the web has four
      rings, is gray, and the plot is blue. */
  lemma InitDefaults(data: seq<DataPoint>)
    requires |data| >= 1
    ensures Init(data).data == data
    ensures var s := Body(Init(data));
      var n := |data|;
      |s.grid| == 4 * (n + 1) + 2 * n &&
      s.gridColor == Gray && s.plotFillColor == Blue && s.plotStrokeColor == Blue
  {
    BodyLayout(Init(data));
  }
}
