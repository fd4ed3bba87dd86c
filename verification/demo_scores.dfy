// The raw scores both demo screens edit with sliders, and their conversion
// to the chart's normalised values.

module DemoScores {

  /** The top of every slider's range. */
  const MaxScore: real := 150.0

  /** The score a newly added axis starts with. */
  const DefaultScore: real := 100.0

  /** A slider over `0...MaxScore` only ever writes scores in that range. */
  predicate InSliderRange(score: real) {
    0.0 <= score <= MaxScore
  }

  /** `k` copies of `x`: the scores appended for new axes, or repeated taps on a control. */
  function Repeat<T>(x: T, k: nat): (r: seq<T>)
    ensures |r| == k && forall i :: 0 <= i < k ==> r[i] == x
  {
    seq(k, _ => x)
  }

  /** A score as a fraction of the maximum score. */
  function Normalize(score: real): (value: real)
    ensures value * MaxScore == score
  {
    score / MaxScore
  }

  /** Every score, normalised, in order. */
  function Normalized(scores: seq<real>): (values: seq<real>)
    ensures |values| == |scores|
    ensures forall i :: 0 <= i < |scores| ==> values[i] == Normalize(scores[i])
  {
    seq(|scores|, i requires 0 <= i < |scores| => Normalize(scores[i]))
  }

  /** Slider scores, and the default score, normalise into 0..1, the range
      the chart expects; the maximum score reaches the outer ring. */
  lemma NormalizedInUnitRange(scores: seq<real>)
    requires forall i :: 0 <= i < |scores| ==> InSliderRange(scores[i])
    ensures forall i :: 0 <= i < |scores| ==> 0.0 <= Normalized(scores)[i] <= 1.0
    ensures 0.0 <= Normalize(DefaultScore) <= 1.0 && Normalize(MaxScore) == 1.0
  {
    forall i | 0 <= i < |scores|
      ensures 0.0 <= Normalized(scores)[i] <= 1.0
    {
      assert Normalized(scores)[i] * MaxScore == scores[i];
    }
  }
}
