// The demo screen whose chart data is one array of (category, raw score)
// entries, grown and shrunk one axis at a time by a stepper between 3 and 10.

module AxisStepperDemo {
  import opened Geometry
  import opened RadarChartDataPlot
  import opened ChartScene
  import opened DemoScores
  import PointChartView

  /** One row of the demo's state: a category name and its slider score. */
  datatype ChartEntry = ChartEntry(category: string, rawValue: real)

  const MinAxes: int := 3
  const MaxAxes: int := 10

  function InitialChartData(): seq<ChartEntry>
  {
    [ChartEntry("Strength", 120.0), ChartEntry("Speed", 80.0), ChartEntry("Agility", 135.0),
     ChartEntry("Stamina", 90.0), ChartEntry("Flexibility", 100.0)]
  }

  predicate IsDigit(c: char) {
    '0' <= c <= '9'
  }

  function DigitChar(d: int): (c: char)
    requires 0 <= d < 10
    ensures IsDigit(c) && c as int - '0' as int == d
  {
    ('0' as int + d) as char
  }

  /** The decimal numeral of `n` as string interpolation writes it: digits
      only, and no leading zero. */
  function Decimal(n: nat): (s: string)
    ensures |s| >= 1
    ensures forall i :: 0 <= i < |s| ==> IsDigit(s[i])
    ensures n >= 1 ==> s[0] != '0'
  {
    if n < 10 then [DigitChar(n)] else Decimal(n / 10) + [DigitChar(n % 10)]
  }

  /** The number a string of digits denotes. */
  function DecimalValue(s: string): int
    requires forall i :: 0 <= i < |s| ==> IsDigit(s[i])
  {
    if s == [] then 0
    else DecimalValue(s[..|s| - 1]) * 10 + (s[|s| - 1] as int - '0' as int)
  }

  /** Reading the numeral back gives the number. */
  lemma {:induction false} DecimalRoundTrip(n: nat)
    ensures DecimalValue(Decimal(n)) == n
  {
    var s := Decimal(n);
    if n >= 10 {
      DecimalRoundTrip(n / 10);
      assert s[..|s| - 1] == Decimal(n / 10);
    } else {
      assert s[..|s| - 1] == [];
    }
  }

  /** The name of the axis added as the `number`-th one. */
  function AxisName(number: nat): string
  {
    "Axis " + Decimal(number)
  }

  /** Distinct numbers give distinct axis names. */
  lemma AxisNamesDistinct(a: nat, b: nat)
    ensures AxisName(a) == AxisName(b) <==> a == b
  {
    if AxisName(a) == AxisName(b) {
      assert Decimal(a) == AxisName(a)[5..];
      assert Decimal(b) == AxisName(b)[5..];
      DecimalRoundTrip(a);
      DecimalRoundTrip(b);
    }
  }

  /** What addAxis does to the entries. */
  function AddedAxis(entries: seq<ChartEntry>): seq<ChartEntry>
  {
    if |entries| >= MaxAxes then entries
    else entries + [ChartEntry(AxisName(|entries| + 1), DefaultScore)]
  }

  /** What removeAxis does to the entries. */
  function RemovedAxis(entries: seq<ChartEntry>): seq<ChartEntry>
  {
    if |entries| <= MinAxes then entries else entries[..|entries| - 1]
  }

  /** Adding keeps every existing entry and, below the maximum, appends exactly
      one entry named after the new count with the default score; at the
      maximum it changes nothing. Removing keeps a prefix and, above the
      minimum, drops exactly the last entry; at the minimum it changes nothing. */
  lemma AxisStepEffects(entries: seq<ChartEntry>)
    ensures var added := AddedAxis(entries);
      added[..|entries|] == entries &&
      (|entries| < MaxAxes ==> |added| == |entries| + 1 &&
                               added[|entries|] == ChartEntry(AxisName(|entries| + 1), DefaultScore)) &&
      (|entries| >= MaxAxes ==> added == entries)
    ensures var removed := RemovedAxis(entries);
      |removed| <= |entries| && removed == entries[..|removed|] &&
      (|entries| > MinAxes ==> |removed| == |entries| - 1) &&
      (|entries| <= MinAxes ==> removed == entries)
  {
  }

  /** Removing an axis undoes adding one, whenever adding did something. */
  lemma RemoveUndoesAdd(entries: seq<ChartEntry>)
    requires MinAxes <= |entries| < MaxAxes
    ensures RemovedAxis(AddedAxis(entries)) == entries
  {
  }

  /** A tap on the stepper's plus or minus button. */
  datatype StepperTap = Increment | Decrement

  function Apply(tap: StepperTap, entries: seq<ChartEntry>): seq<ChartEntry>
  {
    match tap
    case Increment => AddedAxis(entries)
    case Decrement => RemovedAxis(entries)
  }

  /** The entries after the taps, oldest tap first. */
  function Run(taps: seq<StepperTap>, entries: seq<ChartEntry>): seq<ChartEntry>
  {
    if taps == [] then entries
    else Apply(taps[|taps| - 1], Run(taps[..|taps| - 1], entries))
  }

  /** Whatever the taps, the number of axes stays within 3..10. */
  lemma {:induction false} RunStaysInBounds(taps: seq<StepperTap>, entries: seq<ChartEntry>)
    requires MinAxes <= |entries| <= MaxAxes
    ensures MinAxes <= |Run(taps, entries)| <= MaxAxes
  {
    if taps != [] {
      RunStaysInBounds(taps[..|taps| - 1], entries);
    }
  }

  /** `k` taps on plus reach `min(count + k, 10)` axes; `k` taps on minus
      reach `max(count - k, 3)`. */
  lemma {:induction false} RepeatedTaps(k: nat, entries: seq<ChartEntry>)
    requires MinAxes <= |entries| <= MaxAxes
    ensures |Run(Repeat(Increment, k), entries)| == if |entries| + k <= MaxAxes then |entries| + k else MaxAxes
    ensures |Run(Repeat(Decrement, k), entries)| == if |entries| - k >= MinAxes then |entries| - k else MinAxes
  {
    if k > 0 {
      RepeatedTaps(k - 1, entries);
      assert Repeat(Increment, k)[..k - 1] == Repeat(Increment, k - 1);
      assert Repeat(Decrement, k)[..k - 1] == Repeat(Decrement, k - 1);
    }
  }

  /** From the five initial axes, five taps on plus reach ten and a sixth
      changes nothing; from ten axes, seven taps on minus reach three and an
      eighth changes nothing. */
  lemma StepperScenario(full: seq<ChartEntry>)
    requires |full| == MaxAxes
    ensures |Run(Repeat(Increment, 5), InitialChartData())| == MaxAxes
    ensures Run(Repeat(Increment, 6), InitialChartData()) == Run(Repeat(Increment, 5), InitialChartData())
    ensures |Run(Repeat(Decrement, 7), full)| == MinAxes
    ensures Run(Repeat(Decrement, 8), full) == Run(Repeat(Decrement, 7), full)
  {
    RepeatedTaps(5, InitialChartData());
    RepeatedTaps(7, full);
    assert Repeat(Increment, 6)[..5] == Repeat(Increment, 5);
    assert Repeat(Decrement, 8)[..7] == Repeat(Decrement, 7);
  }

  /** The chart's data points: same count and order, scores normalised. */
  function SpiderChartDataPoints(entries: seq<ChartEntry>): (points: seq<PointChartView.DataPoint>)
    ensures |points| == |entries|
    ensures forall i :: 0 <= i < |entries| ==>
              points[i] == PointChartView.DataPoint(entries[i].category, Normalize(entries[i].rawValue))
  {
    seq(|entries|, i requires 0 <= i < |entries| =>
      PointChartView.DataPoint(entries[i].category, Normalize(entries[i].rawValue)))
  }

  /** The chart view the screen shows, with its default four rings. */
  function ChartOf(entries: seq<ChartEntry>, gridColor: Color, plotFillColor: Color, plotStrokeColor: Color)
    : PointChartView.SpiderWebChartView
  {
    PointChartView.SpiderWebChartView(SpiderChartDataPoints(entries), DefaultDivisions,
                                      gridColor, plotFillColor, plotStrokeColor)
  }

  /** With 3..10 entries scored by the sliders, the chart always draws its
      plot, labels every entry by its category in order, and keeps every plot
      vertex between the centre and the outer ring. */
  lemma DemoChartLayout(entries: seq<ChartEntry>, gridColor: Color, plotFillColor: Color, plotStrokeColor: Color)
    requires MinAxes <= |entries| <= MaxAxes
    requires forall i :: 0 <= i < |entries| ==> InSliderRange(entries[i].rawValue)
    ensures var view := ChartOf(entries, gridColor, plotFillColor, plotStrokeColor);
      var s := PointChartView.Body(view);
      var n := |entries|;
      |s.plot| == n + 1 &&
      |s.labels| == n &&
      (forall i :: 0 <= i < n ==> s.labels[i].text == entries[i].category) &&
      (forall i :: 0 <= i < n ==>
         DistanceFromCenter(PlotVertices(PointChartView.Values(view.data), n, 100.0)[i]) <= 100.0)
  {
    var view := ChartOf(entries, gridColor, plotFillColor, plotStrokeColor);
    var n := |entries|;
    PointChartView.BodyLayout(view);
    var values := PointChartView.Values(view.data);
    forall i | 0 <= i < n
      ensures DistanceFromCenter(PlotVertices(values, n, 100.0)[i]) <= 100.0
    {
      assert values[i] == Normalize(entries[i].rawValue);
      assert values[i] * MaxScore == entries[i].rawValue;
      assert 0.0 <= values[i] <= 1.0;
    }
  }

  /** The screen's state. */
  class SpiderWebChartDemo {
    var chartData: seq<ChartEntry>
    var gridColor: Color
    var plotFillColor: Color
    var plotStrokeColor: Color

    /** Between 3 and 10 entries, every score within its slider's range. */
    ghost predicate Valid()
      reads this
    {
      MinAxes <= |chartData| <= MaxAxes &&
      forall i :: 0 <= i < |chartData| ==> InSliderRange(chartData[i].rawValue)
    }

    constructor ()
      ensures Valid()
      ensures chartData == InitialChartData()
      ensures gridColor == Gray && plotFillColor == Blue && plotStrokeColor == Blue
    {
      chartData := InitialChartData();
      gridColor, plotFillColor, plotStrokeColor := Gray, Blue, Blue;
    }

    method AddAxis()
      requires Valid()
      modifies this`chartData
      ensures Valid()
      ensures chartData == AddedAxis(old(chartData))
    {
      if |chartData| >= MaxAxes {
        return;
      }
      var newCategory := AxisName(|chartData| + 1);
      chartData := chartData + [ChartEntry(newCategory, DefaultScore)];
    }

    method RemoveAxis()
      requires Valid()
      modifies this`chartData
      ensures Valid()
      ensures chartData == RemovedAxis(old(chartData))
    {
      if |chartData| <= MinAxes {
        return;
      }
      chartData := chartData[..|chartData| - 1];
    }

    /** A slider moved to `score`. */
    method SetRawValue(index: int, score: real)
      requires Valid() && 0 <= index < |chartData| && InSliderRange(score)
      modifies this`chartData
      ensures Valid()
      ensures chartData == old(chartData)[index := old(chartData)[index].(rawValue := score)]
    {
      chartData := chartData[index := chartData[index].(rawValue := score)];
    }

    function Chart(): PointChartView.SpiderWebChartView
      reads this
    {
      ChartOf(chartData, gridColor, plotFillColor, plotStrokeColor)
    }
  }
}
