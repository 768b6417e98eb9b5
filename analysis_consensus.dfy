/** `ComparativeAnalyzer._calculate_consensus_score` and `_analyze_disagreements`: pairwise
    agreement and disagreement between the models' predicted classes. */
module Consensus {
  import opened Base
  import opened Records

  // ---------------------------------------------------------------------------------------
  // Reference definitions, over the list of predicted classes

  /** How many later entries agree with entry `i`. */
  function MatchesAfter(s: seq<string>, i: nat): nat
    requires i < |s|
  {
    Count(s[i + 1..], s[i])
  }

  /** The agreeing pairs `(i, j)`, `i < j`, whose first index is below `k`. */
  function AgreementsBefore(s: seq<string>, k: nat): nat
    requires k <= |s|
  {
    if k == 0 then 0 else AgreementsBefore(s, k - 1) + MatchesAfter(s, k - 1)
  }

  function Agreements(s: seq<string>): nat {
    AgreementsBefore(s, |s|)
  }

  /** The pairs `(i, j)`, `i < j < n`, whose first index is below `k`. */
  function PairsBefore(n: nat, k: nat): nat
    requires k <= n
  {
    if k == 0 then 0 else PairsBefore(n, k - 1) + (n - k)
  }

  /** `n * (n - 1) / 2`, the number of pairs. */
  function Pairs(n: nat): (p: nat)
    ensures 2 * p == n * (n - 1)
    ensures p > 0 <==> n >= 2
  {
    PairsCount(n, n);
    PairsBefore(n, n)
  }

  /** The same count as the float `n * (n - 1) / 2`. */
  function HalfProduct(n: nat): (h: real)
    ensures h == Pairs(n) as real
  {
    (n * (n - 1)) as real / 2.0
  }

  ghost predicate AllSame(s: seq<string>) {
    forall i, j :: 0 <= i < |s| && 0 <= j < |s| ==> s[i] == s[j]
  }

  // ---------------------------------------------------------------------------------------
  // Consensus score

  /** The inner loop of `_calculate_consensus_score`: record `i` against every later one. */
  method CompareWithLater(data: seq<PredictionData>, i: nat) returns (agreements: nat, pairs: nat)
    requires i < |data|
    ensures agreements == MatchesAfter(Classes(data), i)
    ensures pairs == |data| - i - 1
  {
    ghost var s := Classes(data);
    agreements, pairs := 0, 0;
    assert s[i + 1..i + 1] == [];
    for j := i + 1 to |data|
      invariant agreements == Count(s[i + 1..j], s[i])
      invariant pairs == j - i - 1
    {
      assert s[i + 1..j + 1] == s[i + 1..j] + [s[j]];
      CountAppend(s[i + 1..j], s[i], s[j]);
      if data[i].predictedClass == data[j].predictedClass {
        agreements := agreements + 1;
      }
      pairs := pairs + 1;
    }
    assert s[i + 1..|data|] == s[i + 1..];
  }

  /** The share of agreeing pairs among all pairs of records; a single record (or none) is in
      full consensus. */
  method CalculateConsensusScore(data: seq<PredictionData>) returns (score: real)
    ensures |data| <= 1 ==> score == 1.0
    ensures |data| >= 2 ==>
      score == (Agreements(Classes(data)) as real) / (Pairs(|data|) as real)
  {
    var n := |data|;
    if n <= 1 {
      return 1.0;
    }
    ghost var s := Classes(data);
    var agreements := 0;
    var totalPairs := 0;
    for i := 0 to n
      invariant agreements == AgreementsBefore(s, i)
      invariant totalPairs == PairsBefore(n, i)
    {
      var rowAgreements, rowPairs := CompareWithLater(data, i);
      agreements := agreements + rowAgreements;
      totalPairs := totalPairs + rowPairs;
    }
    assert totalPairs == Pairs(n);
    score := if totalPairs > 0 then (agreements as real) / (totalPairs as real) else 0.0;
  }

  lemma {:induction false} PairsCount(n: nat, k: nat)
    requires k <= n
    ensures 2 * PairsBefore(n, k) == k * (2 * n - 1 - k)
  {
    if k > 0 {
      PairsCount(n, k - 1);
    }
  }

  lemma {:induction false} AgreementsBounded(s: seq<string>, k: nat)
    requires k <= |s|
    ensures AgreementsBefore(s, k) <= PairsBefore(|s|, k)
    ensures AgreementsBefore(s, k) == PairsBefore(|s|, k) <==>
            forall i, j :: 0 <= i < k && i < j < |s| ==> s[i] == s[j]
  {
    if k > 0 {
      AgreementsBounded(s, k - 1);
      RowMatches(s, k - 1);
      AgreeUpToStep(s, k);
    }
  }

  /** Every pair with first index below `k` agrees. */
  ghost predicate AgreeUpTo(s: seq<string>, k: nat) {
    forall i, j :: 0 <= i < k && i < j < |s| ==> s[i] == s[j]
  }

  /** Record `i` agrees with every later record exactly when all of them match it. */
  lemma {:induction false} RowMatches(s: seq<string>, i: nat)
    requires i < |s|
    ensures MatchesAfter(s, i) <= |s| - i - 1
    ensures MatchesAfter(s, i) == |s| - i - 1 <==> forall j :: i < j < |s| ==> s[i] == s[j]
  {
    var rest := s[i + 1..];
    CountBound(rest, s[i]);
    if forall t :: 0 <= t < |rest| ==> rest[t] == s[i] {
      forall j | i < j < |s| ensures s[i] == s[j] {
        assert rest[j - i - 1] == s[j];
      }
    }
    if forall j :: i < j < |s| ==> s[i] == s[j] {
      forall t | 0 <= t < |rest| ensures rest[t] == s[i] {
        assert rest[t] == s[i + 1 + t];
      }
    }
  }

  lemma AgreeUpToStep(s: seq<string>, k: nat)
    requires 0 < k <= |s|
    ensures AgreeUpTo(s, k) <==> AgreeUpTo(s, k - 1) && forall j :: k - 1 < j < |s| ==> s[k - 1] == s[j]
  {
  }

  /** The consensus score is a fraction, and it is one exactly when all models predict the
      same class. */
  lemma {:induction false} ConsensusRange(s: seq<string>)
    requires |s| >= 2
    ensures 0.0 <= (Agreements(s) as real) / (Pairs(|s|) as real) <= 1.0
    ensures (Agreements(s) as real) / (Pairs(|s|) as real) == 1.0 <==> AllSame(s)
  {
    AgreementsBounded(s, |s|);
    Fraction(Agreements(s), Pairs(|s|));
    if Agreements(s) == Pairs(|s|) {
      forall i, j | 0 <= i < |s| && 0 <= j < |s| ensures s[i] == s[j] {
        if j < i {
          assert s[j] == s[i];
        }
      }
    }
  }

  /** A count over a positive total, as a float, is a fraction that is one exactly when the
      count is the total. */
  lemma Fraction(a: nat, p: nat)
    requires 0 < p && a <= p
    ensures 0.0 <= (a as real) / (p as real) <= 1.0
    ensures (a as real) / (p as real) == 1.0 <==> a == p
  {
    var x, y := a as real, p as real;
    assert y / y == 1.0;
    assert x / y <= y / y;
    assert x / y * y == x;
    if x / y == 1.0 {
      assert x == y;
    }
  }

  // ---------------------------------------------------------------------------------------
  // Disagreements

  datatype Disagreement = Disagreement(
    model1: string,
    model2: string,
    prediction1: string,
    prediction2: string,
    confidence1: real,
    confidence2: real,
    confidenceDiff: real)

  datatype DisagreementAnalysis = DisagreementAnalysis(
    totalDisagreements: nat,
    disagreementRate: real,
    disagreements: seq<Disagreement>,
    classDistribution: seq<(string, nat)>)

  function Abs(x: real): (r: real)
    ensures 0.0 <= r && (r == x || r == -x)
  {
    if x < 0.0 then -x else x
  }

  function Entry(p: PredictionData, q: PredictionData): (d: Disagreement)
    ensures d.confidenceDiff == Abs(p.confidence - q.confidence)
  {
    Disagreement(p.modelName, q.modelName, p.predictedClass, q.predictedClass,
                 p.confidence, q.confidence, Abs(p.confidence - q.confidence))
  }

  /** The entries for record `i` against the records `j < k` that follow it and differ. */
  function DisagreementsInRow(data: seq<PredictionData>, i: nat, k: nat): seq<Disagreement>
    requires i < |data| && k <= |data|
  {
    if k == 0 then []
    else
      DisagreementsInRow(data, i, k - 1) +
      (if i < k - 1 && data[i].predictedClass != data[k - 1].predictedClass
       then [Entry(data[i], data[k - 1])] else [])
  }

  /** All differing pairs `(i, j)`, `i < j`, with `i < k`, in the order of the loops. */
  function DisagreementsBefore(data: seq<PredictionData>, k: nat): seq<Disagreement>
    requires k <= |data|
  {
    if k == 0 then [] else DisagreementsBefore(data, k - 1) + DisagreementsInRow(data, k - 1, |data|)
  }

  ghost predicate AllDiffer(r: seq<Disagreement>) {
    forall t :: 0 <= t < |r| ==> r[t].prediction1 != r[t].prediction2
  }

  lemma AllDifferAppend(a: seq<Disagreement>, b: seq<Disagreement>)
    requires AllDiffer(a) && AllDiffer(b)
    ensures AllDiffer(a + b)
  {
    forall t | 0 <= t < |a + b| ensures (a + b)[t].prediction1 != (a + b)[t].prediction2 {
      if t >= |a| { assert (a + b)[t] == b[t - |a|]; }
    }
  }

  lemma {:induction false} RowDisagreementsDiffer(data: seq<PredictionData>, i: nat, k: nat)
    requires i < |data| && k <= |data|
    ensures AllDiffer(DisagreementsInRow(data, i, k))
  {
    if k > 0 {
      RowDisagreementsDiffer(data, i, k - 1);
      AllDifferAppend(DisagreementsInRow(data, i, k - 1),
        if i < k - 1 && data[i].predictedClass != data[k - 1].predictedClass
        then [Entry(data[i], data[k - 1])] else []);
    }
  }

  /** Every listed pair has differing predictions. */
  lemma {:induction false} DisagreementsDiffer(data: seq<PredictionData>, k: nat)
    requires k <= |data|
    ensures forall t :: 0 <= t < |DisagreementsBefore(data, k)| ==>
              DisagreementsBefore(data, k)[t].prediction1 != DisagreementsBefore(data, k)[t].prediction2
  {
    if k > 0 {
      DisagreementsDiffer(data, k - 1);
      RowDisagreementsDiffer(data, k - 1, |data|);
      AllDifferAppend(DisagreementsBefore(data, k - 1), DisagreementsInRow(data, k - 1, |data|));
    }
  }

  /** The inner loop of `_analyze_disagreements`: the entries of row `i`. */
  method RowDisagreements(data: seq<PredictionData>, i: nat) returns (row: seq<Disagreement>)
    requires i < |data|
    ensures row == DisagreementsInRow(data, i, |data|)
  {
    row := [];
    for j := 0 to |data|
      invariant row == DisagreementsInRow(data, i, j)
    {
      if i < j && data[i].predictedClass != data[j].predictedClass {
        row := row + [Entry(data[i], data[j])];
      }
    }
  }

  /** The two loops of `_analyze_disagreements`: every row in turn. */
  method AllDisagreements(data: seq<PredictionData>) returns (disagreements: seq<Disagreement>)
    ensures disagreements == DisagreementsBefore(data, |data|)
  {
    disagreements := [];
    for i := 0 to |data|
      invariant disagreements == DisagreementsBefore(data, i)
    {
      var row := RowDisagreements(data, i);
      disagreements := disagreements + row;
    }
  }

  /** Lists every differing pair in index order, the disagreement count over the number of
      pairs `n * (n - 1) / 2` (a true division, which with fewer than two records divides by
      zero), and the class tally. */
  method AnalyzeDisagreements(data: seq<PredictionData>) returns (r: Result<DisagreementAnalysis>)
    ensures r.Err? <==> |data| <= 1
    ensures r.Err? ==> r.error.kind == ZeroDivisionError
    ensures r.Ok? ==> r.value.disagreements == DisagreementsBefore(data, |data|)
    ensures r.Ok? ==> r.value.totalDisagreements == |DisagreementsBefore(data, |data|)|
    ensures r.Ok? ==> r.value.disagreementRate == DisagreementRate(r.value.totalDisagreements, |data|).value
    ensures r.Ok? ==> r.value.classDistribution == Tally(Classes(data))
  {
    var counts := Tally(Classes(data));
    var n := |data|;
    var disagreements := AllDisagreements(data);
    var rate := DisagreementRate(|disagreements|, n);
    if rate.Err? {
      return Err(rate.error);
    }
    r := Ok(DisagreementAnalysis(|disagreements|, rate.value, disagreements, counts));
  }

  /** `count / (n * (n - 1) / 2)` in floats: dividing by zero pairs raises. */
  function DisagreementRate(count: nat, n: nat): (r: Result<real>)
    ensures r.Err? <==> n <= 1
    ensures r.Err? ==> r.error.kind == ZeroDivisionError
    ensures r.Ok? ==> r.value * (Pairs(n) as real) == count as real
  {
    var pairs := HalfProduct(n);
    if pairs == 0.0 then Err(Exception(ZeroDivisionError, "float division by zero"))
    else Ok((count as real) / pairs)
  }

  /** Row `i` holds one entry per later record that differs from it. */
  lemma {:induction false} RowLength(data: seq<PredictionData>, i: nat, k: nat)
    requires i < k <= |data|
    ensures |DisagreementsInRow(data, i, k)| + Count(Classes(data)[i + 1..k], data[i].predictedClass) == k - i - 1
  {
    var s := Classes(data);
    if k == i + 1 {
      EmptyRow(data, i, k);
      assert s[i + 1..k] == [];
    } else {
      RowLength(data, i, k - 1);
      RowGrows(data, i, k);
      assert Count(s[i + 1..k], s[i]) == Count(s[i + 1..k - 1], s[i]) + (if s[k - 1] == s[i] then 1 else 0) by {
        assert s[i + 1..k] == s[i + 1..k - 1] + [s[k - 1]];
        CountAppend(s[i + 1..k - 1], s[i], s[k - 1]);
      }
    }
  }

  /** Past the diagonal, row `i` grows by one entry exactly at a record that differs. */
  lemma RowGrows(data: seq<PredictionData>, i: nat, k: nat)
    requires i + 1 < k <= |data|
    ensures |DisagreementsInRow(data, i, k)| ==
            |DisagreementsInRow(data, i, k - 1)| + (if Classes(data)[k - 1] == Classes(data)[i] then 0 else 1)
  {
  }

  lemma {:induction false} EmptyRow(data: seq<PredictionData>, i: nat, k: nat)
    requires i < |data| && k <= i + 1
    ensures DisagreementsInRow(data, i, k) == []
  {
    if k > 0 {
      EmptyRow(data, i, k - 1);
    }
  }

  lemma {:induction false} DisagreementsPlusAgreements(data: seq<PredictionData>, k: nat)
    requires k <= |data|
    ensures |DisagreementsBefore(data, k)| + AgreementsBefore(Classes(data), k) == PairsBefore(|data|, k)
  {
    if k > 0 {
      DisagreementsPlusAgreements(data, k - 1);
      PlusStep(data, k);
    }
  }

  lemma {:induction false} PlusStep(data: seq<PredictionData>, k: nat)
    requires 0 < k <= |data|
    requires |DisagreementsBefore(data, k - 1)| + AgreementsBefore(Classes(data), k - 1) == PairsBefore(|data|, k - 1)
    ensures |DisagreementsBefore(data, k)| + AgreementsBefore(Classes(data), k) == PairsBefore(|data|, k)
  {
    var s := Classes(data);
    RowComplement(data, k - 1);
    assert |DisagreementsBefore(data, k)| ==
           |DisagreementsBefore(data, k - 1)| + |DisagreementsInRow(data, k - 1, |data|)|;
    assert AgreementsBefore(s, k) == AgreementsBefore(s, k - 1) + MatchesAfter(s, k - 1);
  }

  /** Each later record either differs from record `i` or agrees with it. */
  lemma {:induction false} RowComplement(data: seq<PredictionData>, i: nat)
    requires i < |data|
    ensures |DisagreementsInRow(data, i, |data|)| + MatchesAfter(Classes(data), i) == |data| - i - 1
  {
    RowLength(data, i, |data|);
    assert Classes(data)[i + 1..|data|] == Classes(data)[i + 1..];
    assert Classes(data)[i] == data[i].predictedClass;
  }

  /** Every pair of records either agrees or appears once among the disagreements, so the
      disagreement rate is the complement of the consensus score. */
  lemma {:induction false} DisagreementRateComplementsConsensus(data: seq<PredictionData>)
    requires |data| >= 2
    ensures |DisagreementsBefore(data, |data|)| + Agreements(Classes(data)) == Pairs(|data|)
    ensures var p := Pairs(|data|) as real;
      (|DisagreementsBefore(data, |data|)| as real) / p == 1.0 - (Agreements(Classes(data)) as real) / p
  {
    var n := |data|;
    DisagreementsPlusAgreements(data, n);
    var d := |DisagreementsBefore(data, n)| as real;
    var a := Agreements(Classes(data)) as real;
    var p := Pairs(n) as real;
    assert d == p - a;
    SubtractShare(p, a);
  }

  lemma SubtractShare(p: real, a: real)
    requires p > 0.0
    ensures (p - a) / p == 1.0 - a / p
  {
    assert (p - a) / p == p / p - a / p;
  }
}
