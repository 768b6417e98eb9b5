/** The numeric helpers that analysis.py and mock_ml_engine.py each define on their stand-in
    for numpy (`MockNumpy`), over Python lists of floats; both files define them alike. */
module MockNumpy {
  import opened Base

  /** `x ** 0.5` on a non-negative float, taken as any non-negative square root with
      `sqrt(0) == 0`. */
  ghost predicate IsSqrt(sqrt: real -> real) {
    && sqrt(0.0) == 0.0
    && forall x :: 0.0 <= x ==> 0.0 <= sqrt(x) && sqrt(x) * sqrt(x) == x
  }

  lemma SqrtPositive(sqrt: real -> real, x: real)
    requires IsSqrt(sqrt) && 0.0 < x
    ensures 0.0 < sqrt(x)
  {
    var r := sqrt(x);
    assert r * r == x;
  }

  /** `sum(data) / len(data)`; an empty list divides by zero. */
  function Mean(data: seq<real>): (r: Result<real>)
    ensures r.Err? <==> data == []
    ensures r.Err? ==> r.error.kind == ZeroDivisionError
    ensures r.Ok? ==> r.value * (|data| as real) == SumReals(data)
  {
    if data == [] then Err(Exception(ZeroDivisionError, "division by zero"))
    else Ok(SumReals(data) / (|data| as real))
  }

  /** The sum of `(x - m) ** 2` over the list. */
  function SquaredDeviations(data: seq<real>, m: real): (r: real)
    ensures 0.0 <= r
  {
    if data == [] then 0.0
    else
      var d := data[|data| - 1] - m;
      SquaredDeviations(data[..|data| - 1], m) + d * d
  }

  /** Population standard deviation: the variance divides by `len(data)`, not `len(data) - 1`. */
  function Std(data: seq<real>, sqrt: real -> real): (r: Result<real>)
    requires IsSqrt(sqrt)
    ensures r.Err? <==> data == []
    ensures r.Err? ==> r.error.kind == ZeroDivisionError
    ensures r.Ok? ==> 0.0 <= r.value
    ensures r.Ok? ==> r.value * r.value * (|data| as real) ==
                      SquaredDeviations(data, Mean(data).value)
  {
    if data == [] then Err(Exception(ZeroDivisionError, "division by zero"))
    else
      var n := |data| as real;
      var variance := SquaredDeviations(data, SumReals(data) / n) / n;
      Ok(sqrt(variance))
  }

  /** `data.index(max(data))` on a list: the first index of the maximum; `max` of an empty
      list raises. */
  function Argmax(data: seq<real>): (r: Result<nat>)
    ensures r.Err? <==> data == []
    ensures r.Err? ==> r.error.kind == ValueError
    ensures r.Ok? ==> r.value < |data| && r.value == FirstMaxIndex(data)
  {
    if data == [] then Err(Exception(ValueError, "max() arg is an empty sequence"))
    else Ok(FirstMaxIndex(data))
  }

  /** `1 if value >= 0 else -1`: zero counts as positive. */
  function Sign(value: real): (r: int)
    ensures r == 1 || r == -1
    ensures r == 1 <==> 0.0 <= value
  {
    if value >= 0.0 then 1 else -1
  }

  ghost predicate AllEqual(data: seq<real>, c: real) {
    forall i :: 0 <= i < |data| ==> data[i] == c
  }

  lemma {:induction false} SumOfConstant(data: seq<real>, c: real)
    requires AllEqual(data, c)
    ensures SumReals(data) == (|data| as real) * c
  {
    if data != [] {
      SumOfConstant(data[..|data| - 1], c);
    }
  }

  lemma {:induction false} DeviationsOfConstant(data: seq<real>, c: real)
    requires AllEqual(data, c)
    ensures SquaredDeviations(data, c) == 0.0
  {
    if data != [] {
      DeviationsOfConstant(data[..|data| - 1], c);
    }
  }

  /** A list of equal values has that value as its mean and standard deviation zero. */
  lemma ConstantMeanStd(data: seq<real>, c: real, sqrt: real -> real)
    requires IsSqrt(sqrt) && data != [] && AllEqual(data, c)
    ensures Mean(data) == Ok(c)
    ensures Std(data, sqrt) == Ok(0.0)
  {
    SumOfConstant(data, c);
    var n := |data| as real;
    assert SumReals(data) / n == c;
    DeviationsOfConstant(data, c);
  }

  lemma {:induction false} SumBounds(data: seq<real>, lo: real, hi: real)
    requires forall i :: 0 <= i < |data| ==> lo <= data[i] <= hi
    ensures (|data| as real) * lo <= SumReals(data) <= (|data| as real) * hi
  {
    if data != [] {
      SumBounds(data[..|data| - 1], lo, hi);
    }
  }

  /** The mean lies between any lower and upper bound of the values. */
  lemma MeanBetween(data: seq<real>, lo: real, hi: real)
    requires data != []
    requires forall i :: 0 <= i < |data| ==> lo <= data[i] <= hi
    ensures lo <= Mean(data).value <= hi
  {
    SumBounds(data, lo, hi);
    var n := |data| as real;
    var s := SumReals(data);
    assert Mean(data).value == s / n;
    assert lo == (n * lo) / n && (n * lo) / n <= s / n;
    assert s / n <= (n * hi) / n && (n * hi) / n == hi;
  }
}
