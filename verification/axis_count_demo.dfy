// The demo screen whose number of axes is a stepper-bound integer; the
// category names are a prefix of a fixed master list, and a change handler
// resizes the score array to follow the number of axes.

module AxisCountDemo {
  import opened ChartScene
  import opened DemoScores
  import ArrayChartView

  /** Every category the screen can show, in the order axes are added. */
  const AllCategories: seq<string> := [
    "Strength", "Speed", "Agility", "Stamina", "Flexibility",
    "Power", "Endurance", "Balance", "Coordination", "Accuracy"]

  const MinAxes: int := 3
  const MaxAxes: int := 10

  /** Swift's `prefix(k)`: the first `k` elements, or all of them when there are fewer. */
  function Prefix<T>(s: seq<T>, k: nat): (p: seq<T>)
    ensures |p| == if k <= |s| then k else |s|
    ensures p == s[..|p|]
  {
    if k <= |s| then s[..k] else s
  }

  /** What the change handler makes of the scores when the number of axes
      goes from `oldValue` to `newValue`: default scores appended, or scores
      removed from the end. Removing more scores than there are traps. */
  function Resized(scores: seq<real>, oldValue: int, newValue: int): seq<real>
    requires newValue < oldValue ==> oldValue - newValue <= |scores|
  {
    var difference := newValue - oldValue;
    if difference > 0 then scores + Repeat(DefaultScore, difference)
    else if difference < 0 then scores[..|scores| + difference]
    else scores
  }

  /** If the scores matched the old number of axes, they match the new one.
      The scores they share keep their values, every added score is the
      default, and a zero difference changes nothing. */
  lemma ResizedFollowsAxes(scores: seq<real>, oldValue: int, newValue: int)
    requires |scores| == oldValue && newValue >= 0
    ensures |Resized(scores, oldValue, newValue)| == newValue
    ensures forall i :: 0 <= i < newValue && i < oldValue ==> Resized(scores, oldValue, newValue)[i] == scores[i]
    ensures forall i :: oldValue <= i < newValue ==> Resized(scores, oldValue, newValue)[i] == DefaultScore
    ensures oldValue == newValue ==> Resized(scores, oldValue, newValue) == scores
  {
  }

  /** Shrinking back undoes growing. */
  lemma ShrinkUndoesGrow(scores: seq<real>, oldValue: int, newValue: int)
    requires oldValue <= newValue
    ensures Resized(Resized(scores, oldValue, newValue), newValue, oldValue) == scores
  {
  }

  /** While the scores match a number of axes within the stepper's bounds, the
      chart gets as many values as categories, so its plot is always drawn,
      and its labels are the first `numberOfAxes` names of the master list. */
  lemma ChartNeverMismatched(numberOfAxes: int, scores: seq<real>)
    requires MinAxes <= numberOfAxes <= MaxAxes && |scores| == numberOfAxes
    ensures var categories := Prefix(AllCategories, numberOfAxes);
      var s := ArrayChartView.Body(ArrayChartView.Init(Normalized(scores), categories));
      |Normalized(scores)| == |categories| == numberOfAxes &&
      s.plot != [] && |s.plot| == numberOfAxes + 1 &&
      |s.labels| == numberOfAxes &&
      forall i :: 0 <= i < numberOfAxes ==> s.labels[i].text == AllCategories[i]
  {
    var categories := Prefix(AllCategories, numberOfAxes);
    ArrayChartView.BodyLayout(ArrayChartView.Init(Normalized(scores), categories));
  }

  /** A chart drawn from scores that do not match the number of axes, as when
      the axis count has changed but the change handler has not yet resized
      the scores: the grid still has one spoke per axis and one label per
      category, but the plot is left out rather than drawn wrongly. */
  lemma StaleScoresDropPlot(numberOfAxes: int, scores: seq<real>)
    requires MinAxes <= numberOfAxes <= MaxAxes && |scores| != numberOfAxes
    ensures var categories := Prefix(AllCategories, numberOfAxes);
      var s := ArrayChartView.Body(ArrayChartView.Init(Normalized(scores), categories));
      |categories| == numberOfAxes &&
      s.plot == [] &&
      |s.grid| == 4 * (numberOfAxes + 1) + 2 * numberOfAxes &&
      |s.labels| == numberOfAxes
  {
    var categories := Prefix(AllCategories, numberOfAxes);
    ArrayChartView.BodyLayout(ArrayChartView.Init(Normalized(scores), categories));
  }

  /** The screen's state. */
  class SpiderWebChartDemo {
    var numberOfAxes: int
    var rawData: seq<real>

    /** The number of axes within the stepper's bounds, one score per axis,
        every score within its slider's range. */
    ghost predicate Valid()
      reads this
    {
      MinAxes <= numberOfAxes <= MaxAxes &&
      |rawData| == numberOfAxes &&
      forall i :: 0 <= i < |rawData| ==> InSliderRange(rawData[i])
    }

    constructor ()
      ensures Valid()
      ensures numberOfAxes == 5 && rawData == [120.0, 80.0, 135.0, 90.0, 100.0]
    {
      numberOfAxes := 5;
      rawData := [120.0, 80.0, 135.0, 90.0, 100.0];
    }

    function CurrentCategories(): seq<string>
      reads this
      requires numberOfAxes >= 0
    {
      Prefix(AllCategories, numberOfAxes)
    }

    function NormalizedData(): seq<real>
      reads this
    {
      Normalized(rawData)
    }

    /** The handler run when the number of axes changes from `oldValue` to `newValue`. */
    method OnNumberOfAxesChange(oldValue: int, newValue: int)
      requires newValue < oldValue ==> oldValue - newValue <= |rawData|
      modifies this`rawData
      ensures rawData == Resized(old(rawData), oldValue, newValue)
    {
      var difference := newValue - oldValue;
      if difference > 0 {
        for k := 0 to difference
          invariant rawData == old(rawData) + Repeat(DefaultScore, k)
        {
          rawData := rawData + [DefaultScore];
        }
      } else if difference < 0 {
        rawData := rawData[..|rawData| - (-difference)];
      }
    }

    /** The stepper's plus button: disabled at the upper bound, otherwise one
        more axis, followed by the change handler. */
    method Increment()
      requires Valid()
      modifies this
      ensures Valid()
      ensures numberOfAxes == if old(numberOfAxes) < MaxAxes then old(numberOfAxes) + 1 else old(numberOfAxes)
      ensures rawData == Resized(old(rawData), old(numberOfAxes), numberOfAxes)
    {
      if numberOfAxes < MaxAxes {
        var oldValue := numberOfAxes;
        numberOfAxes := numberOfAxes + 1;
        OnNumberOfAxesChange(oldValue, numberOfAxes);
        ResizedFollowsAxes(old(rawData), oldValue, numberOfAxes);
      }
    }

    /** The stepper's minus button: disabled at the lower bound, otherwise one
        axis fewer, followed by the change handler. */
    method Decrement()
      requires Valid()
      modifies this
      ensures Valid()
      ensures numberOfAxes == if old(numberOfAxes) > MinAxes then old(numberOfAxes) - 1 else old(numberOfAxes)
      ensures rawData == Resized(old(rawData), old(numberOfAxes), numberOfAxes)
    {
      if numberOfAxes > MinAxes {
        var oldValue := numberOfAxes;
        numberOfAxes := numberOfAxes - 1;
        OnNumberOfAxesChange(oldValue, numberOfAxes);
        ResizedFollowsAxes(old(rawData), oldValue, numberOfAxes);
      }
    }

    /** A slider moved to `score`. */
    method SetRawValue(index: int, score: real)
      requires Valid() && 0 <= index < |rawData| && InSliderRange(score)
      modifies this`rawData
      ensures Valid()
      ensures rawData == old(rawData)[index := score]
    {
      rawData := rawData[index := score];
    }
  }
}
