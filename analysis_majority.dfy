/** `ComparativeAnalyzer._calculate_majority_vote`. */
module Majority {
  import opened Base
  import opened Records

  datatype MajorityVote = MajorityVote(
    predictedClass: string,
    voteCount: nat,
    votePercentage: real,
    allVotes: seq<(string, nat)>,
    totalModels: nat)

  /** The most common predicted class (ties going to the class that occurs first), its count
      as a percentage of all records, and the whole tally. */
  function CalculateMajorityVote(data: seq<PredictionData>): (r: Result<MajorityVote>)
    ensures r.Err? <==> data == []
    ensures r.Err? ==> r.error.kind == IndexError
    ensures r.Ok? ==> r.value.totalModels == |data|
    ensures r.Ok? ==> r.value.allVotes == Tally(Classes(data))
    ensures r.Ok? ==> VoteTotal(r.value.allVotes) == |data|
    ensures r.Ok? ==> r.value.predictedClass in Classes(data)
    ensures r.Ok? ==> r.value.voteCount == Count(Classes(data), r.value.predictedClass)
    ensures r.Ok? ==> forall c :: c in Classes(data) ==> Count(Classes(data), c) <= r.value.voteCount
    ensures r.Ok? ==> forall c :: c in Classes(data) && Count(Classes(data), c) == r.value.voteCount ==>
                        IndexOf(Classes(data), r.value.predictedClass) <= IndexOf(Classes(data), c)
    ensures r.Ok? ==> r.value.votePercentage == Percentage(r.value.voteCount, r.value.totalModels)
  {
    var classes := Classes(data);
    var mc := MostCommon(classes);
    if mc.Err? then Err(mc.error)
    else
      var n := |classes|;
      var percentage := Percentage(mc.value.1, n);
      TallyTotal(classes);
      Ok(MajorityVote(mc.value.0, mc.value.1, percentage, Tally(classes), n))
  }

  /** The vote share lies in (0, 100] and is 100 exactly when every record votes alike. */
  lemma VotePercentageRange(data: seq<PredictionData>)
    requires data != []
    ensures var v := CalculateMajorityVote(data).value;
      && 0.0 < v.votePercentage <= 100.0
      && (v.votePercentage == 100.0 <==>
            forall i :: 0 <= i < |data| ==> data[i].predictedClass == v.predictedClass)
  {
    var v := CalculateMajorityVote(data).value;
    var classes := Classes(data);
    CountBound(classes, v.predictedClass);
    assert v.votePercentage == (v.voteCount as real / |data| as real) * 100.0;
    ShareBounds(v.voteCount as real, |data| as real);
  }

  /** `(count / total) * 100` */
  function Percentage(count: nat, total: nat): (p: real)
    requires 0 < total
    ensures p * (total as real) == 100.0 * (count as real)
  {
    (count as real / total as real) * 100.0
  }

  lemma ShareBounds(c: real, n: real)
    requires 0.0 < c <= n
    ensures 0.0 < (c / n) * 100.0 <= 100.0
    ensures (c / n) * 100.0 == 100.0 <==> c == n
  {
    assert c / n <= n / n;
  }
}
