/** `ComparativeAnalyzer._calculate_statistical_significance` and `_binomial_cdf`: a
    two-sided p-value for the majority count under a fair-coin binomial, through a normal
    approximation, and the majority share's distance from one half. */
module StatisticalSignificance {
  import opened Base
  import opened Records
  import opened MockNumpy

  /** `math.pi` as a double. */
  const Pi: real := 3.141592653589793

  /** `2.718281828459045 ** x`, taken as any function with `exp(0) == 1` that maps
      non-positive arguments into [0, 1] (a tiny result may round to zero). */
  ghost predicate IsExp(exp: real -> real) {
    && exp(0.0) == 1.0
    && forall x :: x <= 0.0 ==> 0.0 <= exp(x) <= 1.0
  }

  datatype Significance = Significance(
    majorityVotePValue: real,
    isSignificant: bool,
    effectSize: real,
    sampleSize: nat)

  // ---------------------------------------------------------------------------------------
  // The binomial cdf

  /** `_binomial_cdf` as written: past its guards the last step looks up `np.pi`, which the
      stand-in `MockNumpy` object does not define, so the approximation always raises. */
  function BinomialCdfAsWritten(k: int, n: nat, p: real, sqrt: real -> real): (r: Result<real>)
    requires IsSqrt(sqrt) && 0.0 <= p <= 1.0
    ensures k < 0 ==> r == Ok(0.0)
    ensures 0 <= k && n <= k ==> r == Ok(1.0)
    ensures 0 <= k < n && p * (1.0 - p) == 0.0 ==>
              r == Ok(if k as real >= (n as real) * p then 1.0 else 0.0)
    ensures 0 <= k < n && p * (1.0 - p) != 0.0 ==>
              r.Err? && r.error.kind == AttributeError
  {
    if k < 0 then Ok(0.0)
    else if k >= n then Ok(1.0)
    else
      var mean := (n as real) * p;
      var std := sqrt(Variance(n, p));
      if std == 0.0 then Ok(if k as real >= mean then 1.0 else 0.0)
      else Err(Exception(AttributeError, "'MockNumpy' object has no attribute 'pi'"))
  }

  /** `n * p * (1 - p)`; it vanishes for `n > 0` only at `p` zero or one. */
  function Variance(n: nat, p: real): (v: real)
    requires 0.0 <= p <= 1.0
    ensures 0.0 <= v
    ensures 0 < n ==> (v == 0.0 <==> p * (1.0 - p) == 0.0)
  {
    NonNegativeVariance(n as real, p);
    (n as real) * p * (1.0 - p)
  }

  lemma NonNegativeVariance(n: real, p: real)
    requires 0.0 <= n && 0.0 <= p <= 1.0
    ensures 0.0 <= n * p * (1.0 - p)
    ensures 0.0 < n ==> (n * p * (1.0 - p) == 0.0 <==> p * (1.0 - p) == 0.0)
  {
    var q := p * (1.0 - p);
    NonNegativeProduct(p, 1.0 - p);
    NonNegativeProduct(n, q);
    assert n * p * (1.0 - p) == n * q;
  }

  /** `_binomial_cdf` with `math.pi`: the normal approximation
      `0.5 * (1 + sign(z) * sqrt(1 - exp(-2 z^2 / pi)))`. It is a probability, and it is at
      least one half exactly on the side of the mean where `k` lies. */
  function BinomialCdf(k: int, n: nat, p: real, sqrt: real -> real, exp: real -> real): (r: real)
    requires IsSqrt(sqrt) && IsExp(exp) && 0.0 <= p <= 1.0
    ensures 0.0 <= r <= 1.0
    ensures k < 0 ==> r == 0.0
    ensures 0 <= k && n <= k ==> r == 1.0
    ensures 0 <= k < n && k as real >= (n as real) * p ==> 0.5 <= r
    ensures 0 <= k < n && k as real < (n as real) * p ==> r <= 0.5
  {
    if k < 0 then 0.0
    else if k >= n then 1.0
    else
      var mean := (n as real) * p;
      var std := sqrt(Variance(n, p));
      if std == 0.0 then (if k as real >= mean then 1.0 else 0.0)
      else
        var z := (k as real - mean) / std;
        SqrtPositive(sqrt, Variance(n, p));
        ApproximationBounds(z, sqrt, exp);
        0.5 * (1.0 + (Sign(z) as real) * sqrt(1.0 - exp(-2.0 * (z * z) / Pi)))
  }

  lemma ApproximationBounds(z: real, sqrt: real -> real, exp: real -> real)
    requires IsSqrt(sqrt) && IsExp(exp)
    ensures var s := sqrt(1.0 - exp(-2.0 * (z * z) / Pi));
      && 0.0 <= s <= 1.0
      && (0.0 <= z ==> 0.5 <= 0.5 * (1.0 + (Sign(z) as real) * s) <= 1.0)
      && (z < 0.0 ==> 0.0 <= 0.5 * (1.0 + (Sign(z) as real) * s) <= 0.5)
  {
    var x := -2.0 * (z * z) / Pi;
    assert 0.0 <= z * z;
    assert x <= 0.0;
    var e := exp(x);
    var s := sqrt(1.0 - e);
    assert s * s == 1.0 - e;
  }

  // ---------------------------------------------------------------------------------------
  // Significance

  /** `count / total - 0.5` */
  function EffectSize(count: nat, total: nat): real
    requires 0 < total
  {
    (count as real) / (total as real) - 0.5
  }

  /** As written: whenever there is a record, the majority count `c` of `n` records gives
      `k = c - 1` in `[0, n)` and `p = 0.5`, so none of the cdf's guards fires and the
      missing `np.pi` is always reached; with no record `most_common(1)[0]` raises first. */
  function CalculateStatisticalSignificanceAsWritten(data: seq<PredictionData>, sqrt: real -> real)
    : (r: Result<Significance>)
    requires IsSqrt(sqrt)
    ensures r.Err?
    ensures data == [] ==> r.error.kind == IndexError
    ensures data != [] ==> r.error.kind == AttributeError
  {
    var classes := Classes(data);
    var mc := MostCommon(classes);
    if mc.Err? then Err(mc.error)
    else
      var count := mc.value.1;
      var total := |classes|;
      CountBound(classes, mc.value.0);
      var cdf := BinomialCdfAsWritten(count - 1, total, 0.5, sqrt);
      if cdf.Err? then Err(cdf.error)
      else
        // the report dict is never built: the cdf cannot succeed here
        assert false;
        Err(Exception(OtherError, ""))
  }

  /** With `math.pi`: the two-sided p-value `2 * (1 - cdf(c - 1))` of the majority count `c`,
      its comparison with 0.05, the effect size and the sample size. */
  function CalculateStatisticalSignificance(data: seq<PredictionData>, sqrt: real -> real,
                                            exp: real -> real): (r: Result<Significance>)
    requires IsSqrt(sqrt) && IsExp(exp)
    ensures r.Err? <==> data == []
    ensures r.Err? ==> r.error.kind == IndexError
    ensures r.Ok? ==>
      var c := MostCommon(Classes(data)).value.1;
      && 1 <= c <= |data|
      && r.value.sampleSize == |data|
      && r.value.effectSize == EffectSize(c, |data|)
      && r.value.majorityVotePValue == 2.0 * (1.0 - BinomialCdf(c - 1, |data|, 0.5, sqrt, exp))
      && (r.value.isSignificant <==> r.value.majorityVotePValue < 0.05)
    ensures r.Ok? ==> 0.0 <= r.value.majorityVotePValue <= 2.0
  {
    var classes := Classes(data);
    var mc := MostCommon(classes);
    if mc.Err? then Err(mc.error)
    else
      var count := mc.value.1;
      var total := |classes|;
      CountBound(classes, mc.value.0);
      var cdf := BinomialCdf(count - 1, total, 0.5, sqrt, exp);
      var pValue := 2.0 * (1.0 - cdf);
      Ok(Significance(pValue, pValue < 0.05, EffectSize(count, total), total))
  }

  /** The effect size lies in (-0.5, 0.5] and is 0.5 exactly when the vote is unanimous. */
  lemma EffectSizeRange(data: seq<PredictionData>, sqrt: real -> real, exp: real -> real)
    requires IsSqrt(sqrt) && IsExp(exp) && data != []
    ensures var e := CalculateStatisticalSignificance(data, sqrt, exp).value.effectSize;
      && -0.5 < e <= 0.5
      && (e == 0.5 <==> forall i :: 0 <= i < |data| ==> data[i].predictedClass == data[0].predictedClass)
  {
    var classes := Classes(data);
    var mc := MostCommon(classes).value;
    var n := |data|;
    CountBound(classes, mc.0);
    FractionBounds(mc.1 as real, n as real);
    if forall i :: 0 <= i < n ==> data[i].predictedClass == data[0].predictedClass {
      assert Count(classes, classes[0]) == n by { CountBound(classes, classes[0]); }
      assert mc.1 == n;
    }
  }

  lemma FractionBounds(c: real, n: real)
    requires 0.0 < c <= n
    ensures 0.0 < c / n <= 1.0
    ensures c / n == 1.0 <==> c == n
  {
    assert c / n <= n / n;
  }

  /** A strict-enough majority (`2 (c - 1) >= n`) keeps the p-value at most one. */
  lemma MajorityPValue(data: seq<PredictionData>, sqrt: real -> real, exp: real -> real)
    requires IsSqrt(sqrt) && IsExp(exp) && data != []
    requires 2 * (MostCommon(Classes(data)).value.1 - 1) >= |data|
    ensures CalculateStatisticalSignificance(data, sqrt, exp).value.majorityVotePValue <= 1.0
  {
    var c := MostCommon(Classes(data)).value.1;
    assert (c - 1) as real >= (|data| as real) * 0.5;
  }
}
