/** `ComparativeAnalyzer._calculate_confidence_intervals`: mean, population standard
    deviation and a 95% interval of the models' confidences, clipped to [0, 1]. */
module ConfidenceIntervals {
  import opened Base
  import opened Records
  import opened MockNumpy

  datatype Interval = Interval(lower: real, upper: real)

  datatype ConfidenceReport = ConfidenceReport(
    meanConfidence: real,
    stdConfidence: real,
    interval95: Interval,
    minConfidence: real,
    maxConfidence: real)

  /** Python's `min` of a non-empty list: an element no larger than any other. */
  function Minimum(xs: seq<real>): (m: real)
    requires xs != []
    ensures m in xs
    ensures forall i :: 0 <= i < |xs| ==> m <= xs[i]
  {
    if |xs| == 1 then xs[0]
    else
      var rest := Minimum(xs[..|xs| - 1]);
      if xs[|xs| - 1] < rest then xs[|xs| - 1] else rest
  }

  /** Python's `max` of a non-empty list: an element no smaller than any other. */
  function Maximum(xs: seq<real>): (m: real)
    requires xs != []
    ensures m in xs
    ensures forall i :: 0 <= i < |xs| ==> xs[i] <= m
  {
    if |xs| == 1 then xs[0]
    else
      var rest := Maximum(xs[..|xs| - 1]);
      if xs[|xs| - 1] > rest then xs[|xs| - 1] else rest
  }

  /** `1.96 * std / sqrt(n)`, the half-width of the interval. */
  function Margin(std: real, n: nat, sqrt: real -> real): (h: real)
    requires IsSqrt(sqrt) && 0 < n && 0.0 <= std
    ensures 0.0 <= h
    ensures h * sqrt(n as real) == 1.96 * std
  {
    SqrtPositive(sqrt, n as real);
    (1.96 * std) / sqrt(n as real)
  }

  /** `max(0, x)` and `min(1, x)`. */
  function ClipLow(x: real): (r: real)
    ensures 0.0 <= r && x <= r
    ensures r == x || r == 0.0
  {
    if x > 0.0 then x else 0.0
  }

  function ClipHigh(x: real): (r: real)
    ensures r <= 1.0 && r <= x
    ensures r == x || r == 1.0
  {
    if x < 1.0 then x else 1.0
  }

  /** No confidences give the empty dict; otherwise the statistics of the list, the interval
      `mean -/+ margin` clipped to [0, 1], and the extreme confidences. */
  function CalculateConfidenceIntervals(data: seq<PredictionData>, sqrt: real -> real)
    : (r: Option<ConfidenceReport>)
    requires IsSqrt(sqrt)
    ensures r.None? <==> data == []
    ensures r.Some? ==> r.value.meanConfidence == Mean(Confidences(data)).value
    ensures r.Some? ==> r.value.stdConfidence == Std(Confidences(data), sqrt).value
    ensures r.Some? ==>
      var m := r.value.meanConfidence;
      var h := Margin(r.value.stdConfidence, |data|, sqrt);
      && 0.0 <= r.value.interval95.lower && r.value.interval95.upper <= 1.0
      && (r.value.interval95.lower == m - h || (r.value.interval95.lower == 0.0 && m - h <= 0.0))
      && (r.value.interval95.upper == m + h || (r.value.interval95.upper == 1.0 && 1.0 <= m + h))
    ensures r.Some? ==> r.value.minConfidence in Confidences(data) && r.value.maxConfidence in Confidences(data)
    ensures r.Some? ==> forall i :: 0 <= i < |data| ==>
              r.value.minConfidence <= data[i].confidence <= r.value.maxConfidence
  {
    var confidences := Confidences(data);
    if confidences == [] then None
    else
      var mean := Mean(confidences).value;
      var std := Std(confidences, sqrt).value;
      var ci := Margin(std, |confidences|, sqrt);
      Some(ConfidenceReport(mean, std, Interval(ClipLow(mean - ci), ClipHigh(mean + ci)),
                            Minimum(confidences), Maximum(confidences)))
  }

  /** The mean lies between the extreme confidences; when every confidence lies in [0, 1]
      the interval contains the mean. */
  lemma IntervalBracketsMean(data: seq<PredictionData>, sqrt: real -> real)
    requires IsSqrt(sqrt) && data != []
    ensures var r := CalculateConfidenceIntervals(data, sqrt).value;
      r.minConfidence <= r.meanConfidence <= r.maxConfidence
    ensures (forall i :: 0 <= i < |data| ==> 0.0 <= data[i].confidence <= 1.0) ==>
      var r := CalculateConfidenceIntervals(data, sqrt).value;
      r.interval95.lower <= r.meanConfidence <= r.interval95.upper
  {
    var r := CalculateConfidenceIntervals(data, sqrt).value;
    var cs := Confidences(data);
    MeanBetween(cs, r.minConfidence, r.maxConfidence);
    if forall i :: 0 <= i < |data| ==> 0.0 <= data[i].confidence <= 1.0 {
      MeanBetween(cs, 0.0, 1.0);
    }
  }

  /** Identical confidences `c` in [0, 1] give standard deviation zero and the degenerate
      interval `[c, c]`. */
  lemma IdenticalConfidences(data: seq<PredictionData>, c: real, sqrt: real -> real)
    requires IsSqrt(sqrt) && data != [] && 0.0 <= c <= 1.0
    requires forall i :: 0 <= i < |data| ==> data[i].confidence == c
    ensures var r := CalculateConfidenceIntervals(data, sqrt).value;
      && r.meanConfidence == c && r.stdConfidence == 0.0
      && r.interval95 == Interval(c, c)
      && r.minConfidence == c && r.maxConfidence == c
  {
    var cs := Confidences(data);
    assert AllEqual(cs, c);
    ConstantMeanStd(cs, c, sqrt);
    var h := Margin(0.0, |data|, sqrt);
    SqrtPositive(sqrt, |data| as real);
    assert h == 0.0;
  }
}
