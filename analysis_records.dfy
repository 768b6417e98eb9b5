/** What ComparativeAnalyzer reads: the stored per-model predictions of one session, the
    per-record dicts `analyze_predictions` extracts from them, and `Counter` over the
    predicted classes. */
module Records {
  import opened Base

  /** The `PredictionResult` row attached to a prediction (`pred.detailed_result`). */
  datatype DetailedResult = DetailedResult(predictedClass: string, classProbabilities: seq<(string, real)>)

  /** A `ModelPrediction` with the fields of its model that the analyser reads. The model's
      accuracy and the processing time are nullable columns. */
  datatype ModelPrediction = ModelPrediction(
    modelName: string,
    modelId: nat,
    confidenceScore: real,
    processingTime: Option<real>,
    accuracy: Option<real>,
    detailedResult: Option<DetailedResult>)

  /** The dict built for each prediction (`prediction_data` entries). */
  datatype PredictionData = PredictionData(
    modelName: string,
    modelId: nat,
    predictedClass: string,
    confidence: real,
    classProbabilities: seq<(string, real)>,
    processingTime: Option<real>,
    accuracy: Option<real>)

  predicate HasDetailedResult(p: ModelPrediction) {
    p.detailedResult.Some?
  }

  function Extract(p: ModelPrediction): PredictionData
    requires HasDetailedResult(p)
  {
    var d := p.detailedResult.value;
    PredictionData(p.modelName, p.modelId, d.predictedClass, p.confidenceScore,
                   d.classProbabilities, p.processingTime, p.accuracy)
  }

  /** The text of the exception a reverse one-to-one accessor raises when the related row
      does not exist. */
  const NoDetailedResult: string := "ModelPrediction has no detailed_result."

  /** One record per prediction, in input order, when every prediction has its result row. */
  function ExtractEach(preds: seq<ModelPrediction>): (r: seq<PredictionData>)
    requires forall i :: 0 <= i < |preds| ==> HasDetailedResult(preds[i])
    ensures |r| == |preds|
    ensures forall i :: 0 <= i < |preds| ==> r[i] == Extract(preds[i])
  {
    seq(|preds|, i requires 0 <= i < |preds| => Extract(preds[i]))
  }

  /** `prediction_data` after the extraction loop. Reading `pred.detailed_result` on a
      prediction without a result row raises instead of answering a false value, so the loop
      either keeps every prediction or raises at the first one without a row. */
  function Extracted(preds: seq<ModelPrediction>): (r: Result<seq<PredictionData>>)
    ensures r.Ok? <==> forall i :: 0 <= i < |preds| ==> HasDetailedResult(preds[i])
    ensures r.Ok? ==> |r.value| == |preds|
    ensures r.Ok? ==> forall i :: 0 <= i < |preds| ==> r.value[i] == Extract(preds[i])
    ensures r.Err? ==> r.error == Exception(RelatedObjectDoesNotExist, NoDetailedResult)
  {
    var k := FirstFailing(preds, HasDetailedResult);
    if k < |preds| then Err(Exception(RelatedObjectDoesNotExist, NoDetailedResult))
    else Ok(ExtractEach(preds))
  }

  /** The `if not prediction_data` test after the loop only fires on an empty input, which
      the analyser has already answered: the loop drops no prediction. */
  lemma ExtractedEmpty(preds: seq<ModelPrediction>)
    requires Extracted(preds).Ok?
    ensures Extracted(preds).value == [] <==> preds == []
  {
  }

  /** `[pred['predicted_class'] for pred in prediction_data]` */
  function Classes(data: seq<PredictionData>): (r: seq<string>)
    ensures |r| == |data|
    ensures forall i :: 0 <= i < |data| ==> r[i] == data[i].predictedClass
  {
    seq(|data|, i requires 0 <= i < |data| => data[i].predictedClass)
  }

  /** `[pred['confidence'] for pred in prediction_data]` */
  function Confidences(data: seq<PredictionData>): (r: seq<real>)
    ensures |r| == |data|
    ensures forall i :: 0 <= i < |data| ==> r[i] == data[i].confidence
  {
    seq(|data|, i requires 0 <= i < |data| => data[i].confidence)
  }

  /** `dict(Counter(classes))`: each class once, in order of first occurrence, with the
      number of times it occurs. */
  function Tally(classes: seq<string>): (t: seq<(string, nat)>)
    ensures Keys(t) == FirstOccurrences(classes)
    ensures forall i :: 0 <= i < |t| ==> t[i].1 == Count(classes, t[i].0)
  {
    var ks := FirstOccurrences(classes);
    seq(|ks|, i requires 0 <= i < |ks| => (ks[i], Count(classes, ks[i])))
  }

  function VoteTotal(t: seq<(string, nat)>): nat
  {
    if t == [] then 0 else VoteTotal(t[..|t| - 1]) + t[|t| - 1].1
  }

  /** Sum over `ks` of the number of occurrences in `s`. */
  function SumCounts(ks: seq<string>, s: seq<string>): nat
  {
    if ks == [] then 0 else SumCounts(ks[..|ks| - 1], s) + Count(s, ks[|ks| - 1])
  }

  lemma {:induction false} SumCountsStep(ks: seq<string>, s: seq<string>, y: string)
    ensures SumCounts(ks, s + [y]) == SumCounts(ks, s) + Count(ks, y)
  {
    if ks != [] {
      SumCountsStep(ks[..|ks| - 1], s, y);
      CountAppend(s, ks[|ks| - 1], y);
    }
  }

  lemma SumCountsAppendKey(ks: seq<string>, k: string, s: seq<string>)
    ensures SumCounts(ks + [k], s) == SumCounts(ks, s) + Count(s, k)
  {
    assert (ks + [k])[..|ks|] == ks;
  }

  /** The first-occurrence keys of `s` account for every element of `s` once. */
  lemma {:induction false} SumCountsOfFirstOccurrences(s: seq<string>)
    ensures SumCounts(FirstOccurrences(s), s) == |s|
  {
    if s != [] {
      var p := s[..|s| - 1];
      assert s == p + [s[|s| - 1]];
      SumCountsOfFirstOccurrences(p);
      SumCountsExtend(p, s[|s| - 1]);
    }
  }

  /** One more element adds one to the count sum over the first-occurrence keys. */
  lemma {:induction false} SumCountsExtend(p: seq<string>, y: string)
    requires SumCounts(FirstOccurrences(p), p) == |p|
    ensures SumCounts(FirstOccurrences(p + [y]), p + [y]) == |p| + 1
  {
    if y in p {
      SumCountsRepeat(p, y);
    } else {
      SumCountsNewKey(p, y);
    }
  }

  /** A repeated element is counted under its existing key. */
  lemma {:induction false} SumCountsRepeat(p: seq<string>, y: string)
    requires y in p
    requires SumCounts(FirstOccurrences(p), p) == |p|
    ensures SumCounts(FirstOccurrences(p + [y]), p + [y]) == |p| + 1
  {
    var fp := FirstOccurrences(p);
    assert FirstOccurrences(p + [y]) == fp by {
      FirstOccurrencesStep(p, y);
    }
    assert Count(fp, y) == 1 by {
      FirstOccurrencesStep(p, y);
      CountInDistinct(fp, y);
    }
    SumCountsStep(fp, p, y);
  }

  /** A new element is counted under the key it adds. */
  lemma {:induction false} SumCountsNewKey(p: seq<string>, y: string)
    requires y !in p
    requires SumCounts(FirstOccurrences(p), p) == |p|
    ensures SumCounts(FirstOccurrences(p + [y]), p + [y]) == |p| + 1
  {
    var fp := FirstOccurrences(p);
    assert FirstOccurrences(p + [y]) == fp + [y] by {
      FirstOccurrencesStep(p, y);
    }
    assert Count(fp, y) == 0 by {
      FirstOccurrencesStep(p, y);
      CountInDistinct(fp, y);
    }
    assert Count(p + [y], y) == 1 by {
      CountAppend(p, y, y);
      CountBound(p, y);
    }
    SumCountsStep(fp, p, y);
    SumCountsAppendKey(fp, y, p + [y]);
  }

  lemma {:induction false} VoteTotalIsSumCounts(ks: seq<string>, s: seq<string>)
    ensures VoteTotal(seq(|ks|, i requires 0 <= i < |ks| => (ks[i], Count(s, ks[i])))) ==
            SumCounts(ks, s)
  {
    if ks != [] {
      var t := seq(|ks|, i requires 0 <= i < |ks| => (ks[i], Count(s, ks[i])));
      var ks' := ks[..|ks| - 1];
      var t' := seq(|ks'|, i requires 0 <= i < |ks'| => (ks'[i], Count(s, ks'[i])));
      assert t[..|t| - 1] == t';
      VoteTotalIsSumCounts(ks', s);
    }
  }

  /** The vote counts of a tally add up to the number of votes. */
  lemma TallyTotal(classes: seq<string>)
    ensures VoteTotal(Tally(classes)) == |classes|
  {
    VoteTotalIsSumCounts(FirstOccurrences(classes), classes);
    SumCountsOfFirstOccurrences(classes);
  }

  /** The counts of a tally as reals, for taking the first maximum. */
  function VoteCounts(t: seq<(string, nat)>): (r: seq<real>)
    ensures |r| == |t|
    ensures forall i :: 0 <= i < |t| ==> r[i] == t[i].1 as real
  {
    seq(|t|, i requires 0 <= i < |t| => t[i].1 as real)
  }

  /** `Counter(classes).most_common(1)[0]`: the first entry, in first-occurrence order, with
      the largest count; an empty Counter has none and indexing it raises. */
  function MostCommon(classes: seq<string>): (r: Result<(string, nat)>)
    ensures r.Err? <==> classes == []
    ensures r.Err? ==> r.error.kind == IndexError
    ensures r.Ok? ==> r.value.0 in classes && r.value.1 == Count(classes, r.value.0)
    ensures r.Ok? ==> forall c :: c in classes ==> Count(classes, c) <= r.value.1
    ensures r.Ok? ==> forall c :: c in classes && Count(classes, c) == r.value.1 ==>
                        IndexOf(classes, r.value.0) <= IndexOf(classes, c)
  {
    if classes == [] then Err(Exception(IndexError, "list index out of range"))
    else
      var t := Tally(classes);
      var ks := FirstOccurrences(classes);
      assert classes[0] in ks;
      var k := FirstMaxIndex(VoteCounts(t));
      MostCommonFacts(classes, k);
      Ok(t[k])
  }

  lemma MostCommonFacts(classes: seq<string>, k: nat)
    requires |classes| > 0 && |FirstOccurrences(classes)| > 0
    requires k == FirstMaxIndex(VoteCounts(Tally(classes)))
    ensures Tally(classes)[k].0 in classes
    ensures forall c :: c in classes ==> Count(classes, c) <= Tally(classes)[k].1
    ensures forall c :: c in classes && Count(classes, c) == Tally(classes)[k].1 ==>
              IndexOf(classes, Tally(classes)[k].0) <= IndexOf(classes, c)
  {
    var t := Tally(classes);
    var ks := FirstOccurrences(classes);
    var counts := VoteCounts(t);
    assert Keys(t) == ks;
    forall c | c in classes
      ensures Count(classes, c) <= t[k].1
      ensures Count(classes, c) == t[k].1 ==> IndexOf(classes, t[k].0) <= IndexOf(classes, c)
    {
      var i := IndexOf(ks, c);
      assert t[i].0 == c && counts[i] <= counts[k];
      if Count(classes, c) == t[k].1 && i != k {
        assert k < i;
        FirstOccurrencesOrdered(classes, k, i);
      }
    }
  }
}
