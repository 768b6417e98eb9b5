/** `ComparativeAnalyzer.analyze_predictions`: extracts one record per prediction and runs the
    eight stages over them, in the order the report dict lists them; the first stage that
    raises ends the analysis with its exception. */
module ComparativeAnalyzer {
  import opened Base
  import opened Records
  import opened MockNumpy
  import opened Majority
  import opened Weighted
  import opened Consensus
  import opened AgreementMatrix
  import opened ConfidenceIntervals
  import opened StatisticalSignificance
  import opened Performance

  /** The report; `NoAnalysis` is the empty dict. */
  datatype Analysis =
    | NoAnalysis
    | Analysis(
        majorityVote: MajorityVote,
        weightedAverage: WeightedAverage,
        consensusScore: real,
        agreementMatrix: Matrix,
        disagreementAnalysis: DisagreementAnalysis,
        confidenceIntervals: Option<ConfidenceReport>,
        statisticalSignificance: Significance,
        modelPerformance: PerformanceReport)

  /** The extraction loop: one record per prediction, in input order, raising at the first
      prediction without a result row. */
  method ExtractPredictionData(predictions: seq<ModelPrediction>) returns (r: Result<seq<PredictionData>>)
    ensures r == Extracted(predictions)
  {
    var data: seq<PredictionData> := [];
    for i := 0 to |predictions|
      invariant forall j :: 0 <= j < i ==> HasDetailedResult(predictions[j])
      invariant data == ExtractEach(predictions[..i])
    {
      if !HasDetailedResult(predictions[i]) {
        return Err(Exception(RelatedObjectDoesNotExist, NoDetailedResult));
      }
      data := data + [Extract(predictions[i])];
    }
    assert predictions[..|predictions|] == predictions;
    r := Ok(data);
  }

  /** The first five entries of the report, over at least two records whose accuracies are
      all known and which name at least one class: each is the result its stage promises. */
  ghost predicate FirstEntries(majority: MajorityVote, weighted: WeightedAverage, consensus: real,
                               matrix: Matrix, disagreements: DisagreementAnalysis,
                               data: seq<PredictionData>)
    requires |data| >= 2 && AllAccuraciesKnown(data) && ClassOrder(data) != []
  {
    // majority_vote
    && majority == CalculateMajorityVote(data).value
    // weighted_average
    && weighted.totalWeight == TotalWeight(data)
    && Keys(weighted.classProbabilities) == ClassOrder(data)
    && Values(weighted.classProbabilities) == NormalizedValues(data)
    && (var vs := NormalizedValues(data);
        var k := FirstMaxIndex(vs);
        weighted.predictedClass == ClassOrder(data)[k] && weighted.confidence == vs[k])
    // consensus_score
    && consensus == (Agreements(Classes(data)) as real) / (Pairs(|data|) as real)
    // agreement_matrix
    && AgreementMatrixOf(matrix, data)
    // disagreement_analysis
    && disagreements.disagreements == DisagreementsBefore(data, |data|)
    && disagreements.totalDisagreements == |DisagreementsBefore(data, |data|)|
    && disagreements.disagreementRate == DisagreementRate(|DisagreementsBefore(data, |data|)|, |data|).value
    && disagreements.classDistribution == Tally(Classes(data))
  }

  /** The report the analyser builds when no stage raises: every entry is the result its
      stage promises. */
  ghost predicate FullReport(a: Analysis, data: seq<PredictionData>, sqrt: real -> real, exp: real -> real)
    requires IsSqrt(sqrt) && IsExp(exp)
  {
    && a.Analysis?
    && |data| >= 2
    && AllAccuraciesKnown(data) && ClassOrder(data) != []
    && FirstEntries(a.majorityVote, a.weightedAverage, a.consensusScore, a.agreementMatrix,
                    a.disagreementAnalysis, data)
    // confidence_intervals and statistical_significance
    && a.confidenceIntervals == CalculateConfidenceIntervals(data, sqrt)
    && a.statisticalSignificance == CalculateStatisticalSignificance(data, sqrt, exp).value
    // model_performance
    && (var ranked := SortByConfidence(Entries(data));
        && a.modelPerformance.modelsByConfidence == ranked
        && a.modelPerformance.fastestModel == ranked[FastestIndex(ranked)]
        && a.modelPerformance.mostConfidentModel == ranked[FirstMaxBy(ranked, ByConfidence)]
        && a.modelPerformance.highestAccuracyModel == ranked[FirstMaxBy(ranked, ByAccuracy)])
  }

  /** The analyser with the significance stage corrected (see `CalculateStatisticalSignificance`).
      No prediction gives the empty report, and a prediction without a result row raises.
      Otherwise the analysis fails exactly when the weighted average does (a missing
      accuracy, or no class probabilities at all) or when there is a single record (the
      disagreement rate divides by zero), with the exception of the earlier of those stages;
      every other stage is total on non-empty input. A complete report holds each stage's
      result on the records. */
  method AnalyzePredictions(predictions: seq<ModelPrediction>, sqrt: real -> real, exp: real -> real)
    returns (r: Result<Analysis>)
    requires IsSqrt(sqrt) && IsExp(exp)
    ensures (r == Ok(NoAnalysis)) <==> predictions == []
    ensures Extracted(predictions).Err? ==> r == Err(Extracted(predictions).error)
    ensures Extracted(predictions).Ok? ==>
      var data := Extracted(predictions).value;
      && (r.Err? <==> data != [] && (!AllAccuraciesKnown(data) || ClassOrder(data) == [] || |data| == 1))
      && (data != [] && !AllAccuraciesKnown(data) ==> r.Err? && r.error.kind == TypeError)
      && (AllAccuraciesKnown(data) && data != [] && ClassOrder(data) == [] ==>
            r.Err? && r.error.kind == ValueError)
      && (AllAccuraciesKnown(data) && ClassOrder(data) != [] && |data| == 1 ==>
            r.Err? && r.error.kind == ZeroDivisionError)
    ensures r.Ok? && r.value.Analysis? ==>
      Extracted(predictions).Ok? && FullReport(r.value, Extracted(predictions).value, sqrt, exp)
  {
    if predictions == [] {
      return Ok(NoAnalysis);
    }
    var data :- ExtractPredictionData(predictions);
    r := RunStages(data, sqrt, exp);
  }

  /** The eight stages over the records of a non-empty input, in the order the report lists
      them; the first stage that raises ends the analysis. */
  method RunStages(data: seq<PredictionData>, sqrt: real -> real, exp: real -> real)
    returns (r: Result<Analysis>)
    requires data != [] && IsSqrt(sqrt) && IsExp(exp)
    ensures r.Err? <==> !AllAccuraciesKnown(data) || ClassOrder(data) == [] || |data| == 1
    ensures !AllAccuraciesKnown(data) ==> r.Err? && r.error.kind == TypeError
    ensures AllAccuraciesKnown(data) && ClassOrder(data) == [] ==> r.Err? && r.error.kind == ValueError
    ensures AllAccuraciesKnown(data) && ClassOrder(data) != [] && |data| == 1 ==>
              r.Err? && r.error.kind == ZeroDivisionError
    ensures r.Ok? ==> FullReport(r.value, data, sqrt, exp)
  {
    var first :- FirstStages(data);
    var (majority, weighted, consensus, matrix, disagreements) := first;
    // the significance and the performance ranking only raise on an empty list
    var intervals := CalculateConfidenceIntervals(data, sqrt);
    var significance := CalculateStatisticalSignificance(data, sqrt, exp).value;
    var performance := AnalyzeModelPerformance(data);
    r := Ok(Analysis(majority, weighted, consensus, matrix, disagreements, intervals,
                     significance, performance.value));
  }

  /** The majority vote, weighted average, consensus score, agreement matrix and disagreement
      analysis, in that order: the stages that can raise on non-empty input. */
  method FirstStages(data: seq<PredictionData>)
    returns (r: Result<(MajorityVote, WeightedAverage, real, Matrix, DisagreementAnalysis)>)
    requires data != []
    ensures r.Err? <==> !AllAccuraciesKnown(data) || ClassOrder(data) == [] || |data| == 1
    ensures !AllAccuraciesKnown(data) ==> r.Err? && r.error.kind == TypeError
    ensures AllAccuraciesKnown(data) && ClassOrder(data) == [] ==> r.Err? && r.error.kind == ValueError
    ensures AllAccuraciesKnown(data) && ClassOrder(data) != [] && |data| == 1 ==>
              r.Err? && r.error.kind == ZeroDivisionError
    ensures r.Ok? ==>
      && |data| >= 2 && AllAccuraciesKnown(data) && ClassOrder(data) != []
      && FirstEntries(r.value.0, r.value.1, r.value.2, r.value.3, r.value.4, data)
  {
    // the majority vote only raises on an empty list
    var majority := CalculateMajorityVote(data).value;
    var weighted :- CalculateWeightedAverage(data);
    var consensus := CalculateConsensusScore(data);
    var matrix := CalculateAgreementMatrix(data);
    var disagreements :- AnalyzeDisagreements(data);
    r := Ok((majority, weighted, consensus, matrix, disagreements));
  }

  /** The analyser as written, whose significance stage reads the missing `np.pi`: every
      analysis of at least one prediction raises. The three errors of the earlier stages
      come first; past them, the significance stage raises `AttributeError`, and the report
      is never built. */
  method AnalyzePredictionsAsWritten(predictions: seq<ModelPrediction>, sqrt: real -> real)
    returns (r: Result<Analysis>)
    requires IsSqrt(sqrt)
    ensures r.Ok? <==> predictions == []
    ensures r.Ok? ==> r.value == NoAnalysis
    ensures Extracted(predictions).Err? ==> r == Err(Extracted(predictions).error)
    ensures Extracted(predictions).Ok? && predictions != [] ==>
      var data := Extracted(predictions).value;
      && (!AllAccuraciesKnown(data) ==> r.error.kind == TypeError)
      && (AllAccuraciesKnown(data) && ClassOrder(data) == [] ==> r.error.kind == ValueError)
      && (AllAccuraciesKnown(data) && ClassOrder(data) != [] && |data| == 1 ==>
            r.error.kind == ZeroDivisionError)
      && (AllAccuraciesKnown(data) && ClassOrder(data) != [] && |data| >= 2 ==>
            r.error.kind == AttributeError)
  {
    if predictions == [] {
      return Ok(NoAnalysis);
    }
    var data :- ExtractPredictionData(predictions);
    var first :- FirstStages(data);
    var (majority, weighted, consensus, matrix, disagreements) := first;
    var intervals := CalculateConfidenceIntervals(data, sqrt);
    // the significance stage always raises, so the report is never built
    var significance := CalculateStatisticalSignificanceAsWritten(data, sqrt);
    r := Err(significance.error);
  }
}
