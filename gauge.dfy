/**
 * The radial gauge's mapping from a reading to what it draws: the filled fraction of
 * the half-circle, the colour band and the eleven tick marks with their labels.
 * Angles are fractions of pi: the dial runs from pi (its left end) to 2 pi (its right end).
 */
module Gauge {
  import opened Numbers

  datatype Option<T> = None | Some(value: T)

  /** The three colour bands of the value arc (green, yellow and red in the dashboard). */
  datatype Band = Green | Yellow | Red

  /** Bands in the order low, medium, high. */
  function Rank(b: Band): nat
  {
    match b
    case Green => 0
    case Yellow => 1
    case Red => 2
  }

  /** The filled fraction: `value / max`, capped at 1 but not floored at 0. */
  function Percentage(value: real, max: real): (r: real)
    requires max > 0.0
    ensures r <= 1.0
    ensures r == 1.0 <==> value >= max
    ensures value < max ==> r * max == value
    ensures r < 0.0 <==> value < 0.0
    ensures r == 0.0 <==> value == 0.0
  {
    Min(1.0, value / max)
  }

  /** Where the background arc and the value arc start: pi. */
  const StartAngle: real := 1.0

  /**
   * Where the value arc ends: it sweeps from pi through the filled fraction of pi, at most
   * the half-circle, nothing at zero, the whole half-circle at or past `max`.
   */
  function EndAngle(value: real, max: real): (r: real)
    requires max > 0.0
    ensures r - StartAngle == Percentage(value, max)
    ensures r - StartAngle <= 1.0
    ensures r == StartAngle <==> value == 0.0
    ensures r - StartAngle == 1.0 <==> value >= max
    ensures value < 0.0 ==> r < StartAngle
  {
    StartAngle + Percentage(value, max)
  }

  /** The colour chosen for a filled fraction. */
  function BandOf(percentage: real): (b: Band)
    ensures b == Green <==> percentage < 0.3
    ensures b == Yellow <==> 0.3 <= percentage < 0.7
    ensures b == Red <==> percentage >= 0.7
  {
    if percentage < 0.3 then Green
    else if percentage < 0.7 then Yellow
    else Red
  }

  /** Comparing a fraction with a threshold of at most 1 is comparing the value with that share of `max`. */
  lemma BelowThreshold(value: real, max: real, c: real)
    requires max > 0.0 && c <= 1.0
    ensures Percentage(value, max) < c <==> value < c * max
  {
    if value < max {
      assert Percentage(value, max) * max == value;
      if Percentage(value, max) < c {
        assert Percentage(value, max) * max < c * max;
      } else {
        assert Percentage(value, max) * max >= c * max;
      }
    } else {
      assert c * max <= max;
    }
  }

  /** A larger value never gives a smaller fraction. */
  lemma PercentageMonotone(v1: real, v2: real, max: real)
    requires max > 0.0 && v1 <= v2
    ensures Percentage(v1, max) <= Percentage(v2, max)
  {
    assert v2 / max - v1 / max == (v2 - v1) / max;
  }

  /** As the value grows, the colour never moves back towards green. */
  lemma BandMonotone(v1: real, v2: real, max: real)
    requires max > 0.0 && v1 <= v2
    ensures Rank(BandOf(Percentage(v1, max))) <= Rank(BandOf(Percentage(v2, max)))
  {
    PercentageMonotone(v1, v2, max);
  }

  /** The colour boundaries sit exactly at 30% and 70% of `max`. */
  lemma BandBoundaries(value: real, max: real)
    requires max > 0.0
    ensures BandOf(Percentage(value, max)) == Green <==> value < 0.3 * max
    ensures BandOf(Percentage(value, max)) == Yellow <==> 0.3 * max <= value < 0.7 * max
    ensures BandOf(Percentage(value, max)) == Red <==> value >= 0.7 * max
  {
    BelowThreshold(value, max, 0.3);
    BelowThreshold(value, max, 0.7);
  }

  /** One tick mark: its angle (a fraction of pi), whether it is a major one, and its label if it has one. */
  datatype TickMark = TickMark(angle: real, major: bool, caption: Option<int>)

  /** The number of tick marks. */
  const TickCount: nat := 11

  /** Tick `i` of a gauge whose scale ends at `max`. */
  function Mark(i: nat, max: real): (t: TickMark)
    requires i < TickCount
    ensures 1.0 <= t.angle <= 2.0
    ensures t.major <==> i == 0 || i == 5 || i == 10
    ensures t.caption.Some? <==> t.major
  {
    var angle := 1.0 + (i as real / 10.0) * 1.0;
    var major := i % 5 == 0;
    TickMark(angle, major, if major then Some(Round((i as real / 10.0) * max)) else None)
  }

  /** The ticks are evenly spaced, a tenth of pi apart, so their angles strictly increase. */
  lemma MarkSpacing(i: nat, j: nat, max: real)
    requires i < j < TickCount
    ensures Mark(j, max).angle - Mark(i, max).angle == (j - i) as real / 10.0
    ensures Mark(i, max).angle < Mark(j, max).angle
  {
  }

  /** The three labels: 0, half of `max` rounded, and `max` rounded. */
  lemma MajorLabels(max: real)
    ensures Mark(0, max).caption == Some(0)
    ensures Mark(5, max).caption == Some(Round(max / 2.0))
    ensures Mark(10, max).caption == Some(Round(max))
    ensures Mark(0, max).angle == StartAngle && Mark(10, max).angle == 2.0
  {
    assert Mark(5, max).caption == Some(Round((5 as real / 10.0) * max));
    assert (5 as real / 10.0) * max == max / 2.0;
    RoundOfInteger(0);
  }

  /** The gauges of the control panel are labelled 0, 75, 150 and 0, 50, 100. */
  lemma PanelLabels()
    ensures Mark(5, 150.0).caption == Some(75) && Mark(10, 150.0).caption == Some(150)
    ensures Mark(5, 100.0).caption == Some(50) && Mark(10, 100.0).caption == Some(100)
  {
    MajorLabels(150.0);
    MajorLabels(100.0);
    RoundOfInteger(75);
    RoundOfInteger(150);
    RoundOfInteger(50);
    RoundOfInteger(100);
  }

  /** The tick-drawing loop, keeping what each pass computes instead of drawing it. */
  method TickMarks(max: real) returns (marks: seq<TickMark>)
    ensures |marks| == TickCount
    ensures forall i :: 0 <= i < TickCount ==> marks[i] == Mark(i, max)
  {
    marks := [];
    for i := 0 to TickCount
      invariant |marks| == i
      invariant forall k :: 0 <= k < i ==> marks[k] == Mark(k, max)
    {
      marks := marks + [Mark(i, max)];
    }
  }
}
