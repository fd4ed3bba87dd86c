# Radar chart layout, modelled in Dafny

This project models the layout engine of a SwiftUI "spider web" (radar) chart
package, together with the axis-count logic of its two demo screens.

- **Grid** (`RadarChartGrid`): the background web. It is `divisions` concentric
  closed polygons with one vertex per category, ring `i` at radius
  `radius * i / divisions`. They are followed by one spoke per category, from
  the centre to the full radius.
- **Data plot** (`RadarChartDataPlot`): one closed polygon whose vertex `i` lies
  on spoke `i` at `radius * data[i]`. It is the empty path when there are no
  values or their count differs from the number of categories.
- **Chart views** (`ChartScene`, `PointChartView`, `ArrayChartView`): the two
  public `SpiderWebChartView` types. They draw the grid, the plot and one label
  per category in a fixed 200 x 200 frame (chart radius 100). Labels sit at
  radius 110, outside the web. One view takes `[SpiderChartDataPoint]`; the
  other takes separate `data` and `categories` arrays.
- **Demo screens** (`AxisStepperDemo`, `AxisCountDemo`): the interactive state.
  It keeps between 3 and 10 axes and one score per axis. Scores are in 0...150
  and are normalised by 150 before charting.

A path is a sequence of `Move`, `Line` and `Close` commands. A point is either
`Center` or `OnSpoke(index, count, r)`. The second form is the point at
distance `r` from the centre in direction `index * (2π / count) - π/2`. That
angle is kept symbolic. `AngleTurns(index, count) = index / count` is the same
direction, measured as a fraction of a clockwise turn from 12 o'clock. Points
are relative to the centre `(width / 2, height / 2)` of the drawing rectangle.
`CGFloat` and `Double` are modelled as `real`.

The two `path(in:)` functions append to a local path inside loops. They are
modelled as methods with the same loops (`GridPath`, `DataPlotPath`). Each is
proved equal to a specification function (`Grid`, `DataPlot`). Lemmas then
characterise those functions command by command. The demo screens' `@State`
becomes a class per screen with a `seq` field, whose methods change it in place.

Two facts about the code shape the model:
- With zero categories the grid's `1..<numberOfCategories` range traps, and so
  does `1...divisions` with zero divisions. So each view's `Body` requires at
  least one category, and `GridPath` requires `numberOfCategories >= 1` and
  `divisions >= 1`.
- Each demo screen holds exactly one score array, which its axis controls
  resize; there is no set of datasets to resize together.

Values are not clamped. A vertex at `radius * value` with a negative value has
its spoke's angle but lies on the opposite ray, and `SameAngle`, `SameRay` and
`OppositeRay` keep these cases apart.

## Model

| member | source | states |
|---|---|---|
| Geometry.CenterOf | Sources/DataVisualizations/SpiderWebChart/RadarChartGrid.swift:9 | the centre is at half the width and half the height |
| Geometry.RadiusOf | Sources/DataVisualizations/SpiderWebChart/RadarChartGrid.swift:10 | the radius is half the shorter side: it fits both sides and equals half of one |
| Geometry.ChartDiscFitsRect | Sources/DataVisualizations/SpiderWebChart/RadarChartGrid.swift:9-10 | the disc of the chart radius around the centre lies inside the rectangle and touches two opposite sides |
| Geometry.SpokeAngleSteps | Sources/DataVisualizations/SpiderWebChart/RadarChartGrid.swift:11-34 | index 0 points straight up, and consecutive indices are `1/count` of a turn apart |
| Geometry.SpokeAnglesOrdered | Sources/DataVisualizations/SpiderWebChart/RadarChartGrid.swift:11-34 | the spokes of one chart lie within one turn in index order, so no two of them coincide |
| Geometry.DistanceFromCenter | Sources/DataVisualizations/SpiderWebChart/RadarChartGrid.swift:35-38 | a point lies at distance `abs(r)` from the centre, and the centre at 0 |
| Geometry.PolygonCharacterized | Sources/DataVisualizations/SpiderWebChart/RadarChartGrid.swift:16-20 | move to the first vertex, add a line to each later vertex in order, then close: this is exactly the closed polygon through the vertices, and the only path that is |
| RadarChartGrid.GridPath | Sources/DataVisualizations/SpiderWebChart/RadarChartGrid.swift:7-30 | the loops build exactly `Grid(n, divisions, radius)`; they need `n >= 1` and `divisions >= 1`, else a range traps |
| RadarChartGrid.GridShape | Sources/DataVisualizations/SpiderWebChart/RadarChartGrid.swift:14-27 | the grid has `divisions*(n+1) + 2n` commands; block `i` is the closed polygon through the `n` ring-`i` vertices in index order; spoke `m` is `Move(Center)` then `Line` to vertex `m` at full radius |
| RadarChartGrid.GridRing | Sources/DataVisualizations/SpiderWebChart/RadarChartGrid.swift:14-21 | commands `(i-1)(n+1)` to `i(n+1)` are the closed polygon of ring `i` |
| RadarChartGrid.GridSpokes | Sources/DataVisualizations/SpiderWebChart/RadarChartGrid.swift:24-27 | after the rings come exactly `n` spokes in index order |
| RadarChartGrid.RingRadii | Sources/DataVisualizations/SpiderWebChart/RadarChartGrid.swift:14-15 | for a positive radius, ring radii are positive, strictly increasing and at most the radius; the last ring is the full radius |
| RadarChartGrid.OuterRingRadius | Sources/DataVisualizations/SpiderWebChart/RadarChartGrid.swift:14-15 | for any radius and any `divisions >= 1`, ring `divisions` has the full radius |
| RadarChartGrid.RingRadiusWithin | Sources/DataVisualizations/SpiderWebChart/RadarChartGrid.swift:14-15 | for a positive radius, every ring radius lies in `(0, radius]` |
| RadarChartGrid.RingsAlignWithSpokes | Sources/DataVisualizations/SpiderWebChart/RadarChartGrid.swift:16-26 | vertex `j` of every ring has the angle of spoke `j`, vertex 0 at the top; for a positive radius it lies on spoke `j`'s ray, no farther out than the spoke's end |
| RadarChartDataPlot.PlotVertices | Sources/DataVisualizations/SpiderWebChart/RadarChartDataPlot.swift:30-36 | vertex `i` is on spoke `i` at radius `radius * data[i]`, with no clamping |
| RadarChartDataPlot.DataPlotPath | Sources/DataVisualizations/SpiderWebChart/RadarChartDataPlot.swift:7-27 | the guard and loop build exactly `DataPlot(data, n, radius)`; no precondition, so the loop never traps |
| RadarChartDataPlot.DataPlotEmptyIff | Sources/DataVisualizations/SpiderWebChart/RadarChartDataPlot.swift:13 | the plot is empty if and only if there are no values or the counts differ |
| RadarChartDataPlot.DataPlotShape | Sources/DataVisualizations/SpiderWebChart/RadarChartDataPlot.swift:16-36 | otherwise the plot is one closed polygon of `n+1` commands; vertex `i` has spoke `i`'s angle at distance `abs(radius * data[i])`; for a positive radius, a positive value puts it on spoke `i`'s ray, zero on the centre, a negative value on the opposite ray |
| RadarChartDataPlot.DataPlotExtremes | Sources/DataVisualizations/SpiderWebChart/RadarChartDataPlot.swift:32-36 | value 0 puts the vertex on the centre; value 1 puts it on the outermost ring and at the end of spoke `i` |
| ChartScene.LabelOffset | Sources/DataVisualizations/SpiderWebChart/SpiderWebChartView.swift:54-62 | label `i` lies along the grid's direction for `i` at distance 110 |
| ChartScene.Labels | Sources/DataVisualizations/SpiderWebChart/SpiderWebChartView.swift:44-48 | one label per category, in order, with the category as text |
| ChartScene.ComposeLayout | Sources/DataVisualizations/SpiderWebChartView.swift:27-46 | the scene in the 200 x 200 frame: chart radius 100; grid size; plot empty if and only if counts differ, else a closed polygon; one label per category outside radius 100; colours passed through |
| ChartScene.LabelsOutsideRings | Sources/DataVisualizations/SpiderWebChart/SpiderWebChartView.swift:50-55 | every ring lies within radius 100, below the label radius 110 |
| ArrayChartView.BodyLayout | Sources/DataVisualizations/SpiderWebChartView.swift:27-46 | the grid uses `categories.count` whatever `data.count`; the plot is empty if and only if `data.count != categories.count`; one label per category with its name |
| ArrayChartView.InitDefaults | Sources/DataVisualizations/SpiderWebChartView.swift:11-25 | init keeps `data` and `categories`; defaults give four rings, a gray grid and a blue plot |
| PointChartView.Categories | Sources/DataVisualizations/SpiderWebChart/SpiderWebChartView.swift:11-13 | one category per data point, same order |
| PointChartView.Values | Sources/DataVisualizations/SpiderWebChart/SpiderWebChartView.swift:14-16 | one value per data point, same order |
| PointChartView.PlotNonEmptyIffData | Sources/DataVisualizations/SpiderWebChart/SpiderWebChartView.swift:35-39 | the plot is non-empty if and only if `data` is non-empty |
| PointChartView.BodyLayout | Sources/DataVisualizations/SpiderWebChart/SpiderWebChartView.swift:32-51 | the grid has one spoke per point; the plot is always drawn, with vertex `i` at `100 * data[i].value` on spoke `i`; label `i` reads `data[i].category` and lies outside the web |
| PointChartView.InitDefaults | Sources/DataVisualizations/SpiderWebChart/SpiderWebChartView.swift:18-30 | init keeps `data`; defaults give four rings, a gray grid and a blue plot |
| DemoScores.Normalize | Examples/DataVisualizationExamples/DataVisualizationExamples/SpiderWebChartDemoView.swift:32 | a normalised value is the score as a fraction of 150 |
| DemoScores.Normalized | Examples/DataVisualization/DataVisualization/SpiderWebChartDemoView.swift:33-35 | every score is normalised, same count and order |
| DemoScores.NormalizedInUnitRange | Examples/DataVisualizationExamples/DataVisualizationExamples/SpiderWebChartDemoView.swift:63-70 | slider scores in 0...150 and the default 100 normalise into [0, 1]; 150 gives 1 |
| AxisStepperDemo.Decimal | Examples/DataVisualizationExamples/DataVisualizationExamples/SpiderWebChartDemoView.swift:84 | the interpolated number is a non-empty string of digits with no leading zero |
| AxisStepperDemo.DecimalRoundTrip | Examples/DataVisualizationExamples/DataVisualizationExamples/SpiderWebChartDemoView.swift:84 | reading the numeral back yields the number |
| AxisStepperDemo.AxisNamesDistinct | Examples/DataVisualizationExamples/DataVisualizationExamples/SpiderWebChartDemoView.swift:84 | `"Axis n"` names are equal if and only if their numbers are |
| AxisStepperDemo.AxisStepEffects | Examples/DataVisualizationExamples/DataVisualizationExamples/SpiderWebChartDemoView.swift:82-91 | below 10, add appends exactly one `"Axis count+1"` entry with score 100 and keeps the old entries; at 10 it is a no-op. Above 3, remove drops only the last entry; at 3 it is a no-op |
| AxisStepperDemo.RemoveUndoesAdd | Examples/DataVisualizationExamples/DataVisualizationExamples/SpiderWebChartDemoView.swift:82-91 | removing right after a successful add restores the entries |
| AxisStepperDemo.RunStaysInBounds | Examples/DataVisualizationExamples/DataVisualizationExamples/SpiderWebChartDemoView.swift:82-91 | any sequence of stepper taps keeps between 3 and 10 entries |
| AxisStepperDemo.RepeatedTaps | Examples/DataVisualizationExamples/DataVisualizationExamples/SpiderWebChartDemoView.swift:61 | `k` increments give `min(count+k, 10)` entries; `k` decrements give `max(count-k, 3)` |
| AxisStepperDemo.StepperScenario | Examples/DataVisualizationExamples/DataVisualizationExamples/SpiderWebChartDemoView.swift:16-22 | from the 5 initial entries, 5 increments reach 10 and a 6th changes nothing; from 10, 7 decrements reach 3 and an 8th changes nothing |
| AxisStepperDemo.SpiderChartDataPoints | Examples/DataVisualizationExamples/DataVisualizationExamples/SpiderWebChartDemoView.swift:31-33 | one data point per entry, same order and category, value = score / 150 |
| AxisStepperDemo.DemoChartLayout | Examples/DataVisualizationExamples/DataVisualizationExamples/SpiderWebChartDemoView.swift:35-49 | with 3 to 10 slider-scored entries, the chart always draws its plot, labels each entry by its category, and keeps every vertex within the outer ring |
| AxisStepperDemo.SpiderWebChartDemo.constructor | Examples/DataVisualizationExamples/DataVisualizationExamples/SpiderWebChartDemoView.swift:16-27 | the five initial entries and the gray / blue / blue colours, satisfying the invariant |
| AxisStepperDemo.SpiderWebChartDemo.AddAxis | Examples/DataVisualizationExamples/DataVisualizationExamples/SpiderWebChartDemoView.swift:82-86 | the new entries are `AddedAxis` of the old ones; the invariant is kept |
| AxisStepperDemo.SpiderWebChartDemo.RemoveAxis | Examples/DataVisualizationExamples/DataVisualizationExamples/SpiderWebChartDemoView.swift:88-91 | the new entries are `RemovedAxis` of the old ones; the invariant is kept |
| AxisStepperDemo.SpiderWebChartDemo.SetRawValue | Examples/DataVisualizationExamples/DataVisualizationExamples/SpiderWebChartDemoView.swift:63-71 | a slider changes only its own entry's score; the invariant is kept |
| AxisCountDemo.Prefix | Examples/DataVisualization/DataVisualization/SpiderWebChartDemoView.swift:30-32 | the first `min(k, count)` elements |
| AxisCountDemo.ResizedFollowsAxes | Examples/DataVisualization/DataVisualization/SpiderWebChartDemoView.swift:73-84 | if the scores matched the old count, they match the new one. Shared scores are unchanged, added scores are 100, and a zero difference changes nothing |
| AxisCountDemo.ShrinkUndoesGrow | Examples/DataVisualization/DataVisualization/SpiderWebChartDemoView.swift:73-84 | removing the scores just appended restores the original scores |
| AxisCountDemo.ChartNeverMismatched | Examples/DataVisualization/DataVisualization/SpiderWebChartDemoView.swift:29-48 | within the bounds, there are as many normalised scores as categories, so the plot is drawn with `n+1` commands; the labels are the first `n` master names |
| AxisCountDemo.StaleScoresDropPlot | Examples/DataVisualization/DataVisualization/SpiderWebChartDemoView.swift:29-55 | when the scores do not match the number of axes, the chart still draws the full grid and one label per axis but leaves the plot out |
| AxisCountDemo.SpiderWebChartDemo.constructor | Examples/DataVisualization/DataVisualization/SpiderWebChartDemoView.swift:21-22 | 5 axes with the five initial scores, satisfying the invariant |
| AxisCountDemo.SpiderWebChartDemo.OnNumberOfAxesChange | Examples/DataVisualization/DataVisualization/SpiderWebChartDemoView.swift:73-84 | the append loop or `removeLast` leaves `Resized(old scores, old, new)` |
| AxisCountDemo.SpiderWebChartDemo.Increment | Examples/DataVisualization/DataVisualization/SpiderWebChartDemoView.swift:55 | below 10, adds one axis and runs the handler; at 10 it does nothing. It keeps one score per axis |
| AxisCountDemo.SpiderWebChartDemo.Decrement | Examples/DataVisualization/DataVisualization/SpiderWebChartDemoView.swift:55 | above 3, removes one axis and runs the handler; at 3 it does nothing. It keeps one score per axis |
| AxisCountDemo.SpiderWebChartDemo.SetRawValue | Examples/DataVisualization/DataVisualization/SpiderWebChartDemoView.swift:61-70 | a slider changes only its own score; the invariant is kept |

## Left out

- Trigonometry and concrete coordinates: `cos`, `sin` and `.pi` are floating-point numerics. Angles stay symbolic, and floating-point rounding of `CGFloat` and `Double` is not modelled.
- SwiftUI rendering: stroke, fill, opacity, line widths, fonts, `ZStack`, `Form`, `HStack` and padding are out of scope. The only part kept is the fixed 200 x 200 frame.
- The environment keys and modifiers for grid colour and grid line width are left out. No view reads them, and their scoped propagation is framework behaviour.
- `SpiderChartDataSet` is modelled as a datatype only. No view consumes it, so the model has no multi-dataset overlay.
- Colour pickers, the dark-mode toggle, and the `UUID` identity of demo entries are left out. The demo's colours stay at their initial gray / blue / blue.
- Navigation and app bootstrapping are left out: `ContentView.swift`, `VisualizationMenuView.swift` and `DataVisualizationApp.swift` carry no logic.
- Stepper and Slider are framework controls, modelled by their effect on the state. A slider only writes scores within its range. On the screen with `Stepper(value:in: 3...10)` (AxisCountDemo), plus and minus are disabled at the bounds. On the screen whose stepper calls `addAxis` and `removeAxis` (AxisStepperDemo), both buttons stay enabled, and a tap at a bound reaches a guarded no-op.
- AxisCountDemo.SpiderWebChartDemo.Increment: the stepper's write to `numberOfAxes` and the `onChange` handler that resizes the scores are one step here. The render in between is not modelled: there the chart gets mismatched counts (what `StaleScoresDropPlot` describes), and a slider row for a newly added index would read past the end of the old scores. `ChartNeverMismatched` describes only states after the handler has run.
- AxisCountDemo.SpiderWebChartDemo.Decrement: likewise, the render between the write to `numberOfAxes` and the handler's `removeLast` is not modelled.
- `Int` overflow is not modelled. All counts involved are at most 10.
