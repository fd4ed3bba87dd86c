// The spider web chart view that takes its values and its category names as
// two separate arrays. Nothing ties their lengths together, so the grid
// follows the categories and the plot disappears on a mismatch.

module ArrayChartView {
  import opened Geometry
  import opened RadarChartGrid
  import opened RadarChartDataPlot
  import opened ChartScene

  datatype SpiderWebChartView = SpiderWebChartView(
    data: seq<real>,
    categories: seq<string>,
    divisions: int,
    gridColor: Color,
    plotFillColor: Color,
    plotStrokeColor: Color)

  /** The initialiser with every defaulted argument left out. */
  function Init(data: seq<real>, categories: seq<string>): SpiderWebChartView
  {
    SpiderWebChartView(data, categories, DefaultDivisions, Gray, Blue, Blue)
  }

  /** The view's body. The grid's ranges trap without categories or divisions. */
  function Body(view: SpiderWebChartView): Scene
    requires |view.categories| >= 1 && view.divisions >= 1
  {
    Compose(view.data, view.categories, view.divisions,
            view.gridColor, view.plotFillColor, view.plotStrokeColor)
  }

  /** The grid has `categories.count` spokes whatever the number of values;
      the plot is empty exactly when the two counts differ and otherwise
      closes through vertex `i` at `100 * data[i]` on spoke `i`; there is one
      label per category, outside the outer ring on its spoke. */
  lemma BodyLayout(view: SpiderWebChartView)
    requires |view.categories| >= 1 && view.divisions >= 1
    ensures var n := |view.categories|;
      var s := Body(view);
      s.grid == Grid(n, view.divisions, 100.0) &&
      |s.grid| == view.divisions * (n + 1) + 2 * n &&
      (s.plot == [] <==> |view.data| != n) &&
      (|view.data| == n ==>
         |s.plot| == n + 1 &&
         IsClosedPolygonThrough(s.plot, PlotVertices(view.data, n, 100.0))) &&
      |s.labels| == n &&
      (forall i :: 0 <= i < n ==>
         s.labels[i].text == view.categories[i] &&
         SameRay(s.labels[i].offset, OnSpoke(i, n, 100.0)) &&
         DistanceFromCenter(s.labels[i].offset) > 100.0)
  {
    ComposeLayout(view.data, view.categories, view.divisions,
                  view.gridColor, view.plotFillColor, view.plotStrokeColor);
  }

  /** The initialiser keeps both arrays as given; by default the web has four
      rings, is gray, and the plot is blue. */
  lemma InitDefaults(data: seq<real>, categories: seq<string>)
    requires |categories| >= 1
    ensures Init(data, categories).data == data && Init(data, categories).categories == categories
    ensures var s := Body(Init(data, categories));
      var n := |categories|;
      |s.grid| == 4 * (n + 1) + 2 * n &&
      s.gridColor == Gray && s.plotFillColor == Blue && s.plotStrokeColor == Blue
  {
    BodyLayout(Init(data, categories));
  }
}
