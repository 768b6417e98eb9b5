/** `ComparativeAnalyzer._calculate_weighted_average`: class probabilities averaged over the
    records with weight `accuracy * confidence`, normalised by the total weight. */
module Weighted {
  import opened Base
  import opened Records

  datatype WeightedAverage = WeightedAverage(
    predictedClass: string,
    confidence: real,
    classProbabilities: seq<(string, real)>,
    totalWeight: real)

  // ---------------------------------------------------------------------------------------
  // Reference definitions

  /** The sum of `probability * weight` over the entries of a map with key `c`. */
  function WeightedProbability(m: seq<(string, real)>, w: real, c: string): real
  {
    if m == [] then 0.0
    else
      WeightedProbability(m[..|m| - 1], w, c) + (if m[|m| - 1].0 == c then m[|m| - 1].1 * w else 0.0)
  }

  /** The class keys of every record's probability map, record after record. */
  function AllClasses(data: seq<PredictionData>): seq<string>
  {
    if data == [] then []
    else AllClasses(data[..|data| - 1]) + Keys(data[|data| - 1].classProbabilities)
  }

  /** The classes of the result, in order of first appearance. */
  function ClassOrder(data: seq<PredictionData>): (ks: seq<string>)
    ensures Distinct(ks)
  {
    FirstOccurrences(AllClasses(data))
  }

  ghost predicate AllAccuraciesKnown(data: seq<PredictionData>) {
    forall i :: 0 <= i < |data| ==> data[i].accuracy.Some?
  }

  function Weight(p: PredictionData): real
    requires p.accuracy.Some?
  {
    p.accuracy.value * p.confidence
  }

  function TotalWeight(data: seq<PredictionData>): real
    requires AllAccuraciesKnown(data)
  {
    if data == [] then 0.0 else TotalWeight(data[..|data| - 1]) + Weight(data[|data| - 1])
  }

  /** The sum over the records of the record's probability for `c` times its weight. */
  function WeightedSum(data: seq<PredictionData>, c: string): real
    requires AllAccuraciesKnown(data)
  {
    if data == [] then 0.0
    else
      var last := data[|data| - 1];
      WeightedSum(data[..|data| - 1], c) + WeightedProbability(last.classProbabilities, Weight(last), c)
  }

  /** The value reported for `c`: normalised when the total weight is positive and left as the
      raw weighted sum otherwise. */
  function Normalized(data: seq<PredictionData>, c: string): real
    requires AllAccuraciesKnown(data)
  {
    var w := TotalWeight(data);
    if w > 0.0 then WeightedSum(data, c) / w else WeightedSum(data, c)
  }

  function NormalizedValues(data: seq<PredictionData>): (vs: seq<real>)
    requires AllAccuraciesKnown(data)
    ensures |vs| == |ClassOrder(data)|
  {
    var ks := ClassOrder(data);
    seq(|ks|, i requires 0 <= i < |ks| => Normalized(data, ks[i]))
  }

  function Values(d: seq<(string, real)>): (vs: seq<real>)
    ensures |vs| == |d|
    ensures forall i :: 0 <= i < |d| ==> vs[i] == d[i].1
  {
    seq(|d|, i requires 0 <= i < |d| => d[i].1)
  }

  // ---------------------------------------------------------------------------------------
  // The loop

  /** Accumulates `probability * weight` per class in a dict, record after record, divides by
      the total weight when it is positive, and reports the first entry with the largest
      value. A record without an accuracy makes `accuracy * confidence` raise; no class at
      all makes `max` raise. */
  method CalculateWeightedAverage(data: seq<PredictionData>) returns (r: Result<WeightedAverage>)
    ensures r.Err? <==> !AllAccuraciesKnown(data) || ClassOrder(data) == []
    ensures !AllAccuraciesKnown(data) ==> r.Err? && r.error.kind == TypeError
    ensures AllAccuraciesKnown(data) && ClassOrder(data) == [] ==> r.Err? && r.error.kind == ValueError
    ensures r.Ok? ==> r.value.totalWeight == TotalWeight(data)
    ensures r.Ok? ==> Keys(r.value.classProbabilities) == ClassOrder(data)
    ensures r.Ok? ==> Values(r.value.classProbabilities) == NormalizedValues(data)
    ensures r.Ok? ==>
      var vs := Values(r.value.classProbabilities);
      var k := FirstMaxIndex(vs);
      r.value.predictedClass == r.value.classProbabilities[k].0 && r.value.confidence == vs[k]
  {
    var accumulated := AccumulateWeights(data);
    if accumulated.Err? {
      return Err(accumulated.error);
    }
    var weighted, total := accumulated.value.0, accumulated.value.1;
    if total > 0.0 {
      weighted := Normalize(weighted, total, data);
    } else {
      RawValues(weighted, data);
    }
    if weighted == [] {
      return Err(Exception(ValueError, "max() arg is an empty sequence"));
    }
    var vs := Values(weighted);
    var k := FirstMaxIndex(vs);
    r := Ok(WeightedAverage(weighted[k].0, vs[k], weighted, total));
  }

  /** The loop over the records: the per-class weighted sums and the total weight, or the
      `TypeError` of the first record without an accuracy. */
  method AccumulateWeights(data: seq<PredictionData>) returns (r: Result<(seq<(string, real)>, real)>)
    ensures r.Err? <==> !AllAccuraciesKnown(data)
    ensures r.Err? ==> r.error == Exception(TypeError, "unsupported operand type(s) for *: 'NoneType' and 'float'")
    ensures r.Ok? ==>
      && AllAccuraciesKnown(data)
      && r.value.1 == TotalWeight(data)
      && Keys(r.value.0) == ClassOrder(data)
      && forall k :: 0 <= k < |r.value.0| ==> r.value.0[k].1 == WeightedSum(data, r.value.0[k].0)
  {
    var weighted: seq<(string, real)> := [];
    var total := 0.0;
    for i := 0 to |data|
      invariant AllAccuraciesKnown(data[..i])
      invariant total == TotalWeight(data[..i])
      invariant Keys(weighted) == ClassOrder(data[..i])
      invariant forall k :: 0 <= k < |weighted| ==> weighted[k].1 == WeightedSum(data[..i], weighted[k].0)
    {
      if data[i].accuracy.None? {
        MissingAccuracy(data, i);
        return Err(Exception(TypeError, "unsupported operand type(s) for *: 'NoneType' and 'float'"));
      }
      PrefixStep(data, i);
      var w := Weight(data[i]);
      total := total + w;
      var after := AddRecord(weighted, data[i].classProbabilities, w, data[..i]);
      RecordStep(data, i, after);
      weighted := after;
    }
    assert data[..|data|] == data;
    r := Ok((weighted, total));
  }

  lemma MissingAccuracy(data: seq<PredictionData>, i: nat)
    requires i < |data| && data[i].accuracy.None?
    ensures !AllAccuraciesKnown(data)
  {
  }

  /** One more record with a known accuracy: its weight joins the total. */
  lemma PrefixStep(data: seq<PredictionData>, i: nat)
    requires i < |data| && AllAccuraciesKnown(data[..i]) && data[i].accuracy.Some?
    ensures AllAccuraciesKnown(data[..i + 1])
    ensures TotalWeight(data[..i + 1]) == TotalWeight(data[..i]) + Weight(data[i])
  {
    assert data[..i + 1][..i] == data[..i];
  }

  /** After one record's map is added, the dict is keyed and valued as for the longer prefix. */
  lemma RecordStep(data: seq<PredictionData>, i: nat, d: seq<(string, real)>)
    requires i < |data| && AllAccuraciesKnown(data[..i]) && AllAccuraciesKnown(data[..i + 1])
    requires Keys(d) == FirstOccurrences(AllClasses(data[..i]) + Keys(data[i].classProbabilities))
    requires forall k :: 0 <= k < |d| ==>
      d[k].1 == WeightedSum(data[..i], d[k].0) +
                WeightedProbability(data[i].classProbabilities, Weight(data[i]), d[k].0)
    ensures Keys(d) == ClassOrder(data[..i + 1])
    ensures forall k :: 0 <= k < |d| ==> d[k].1 == WeightedSum(data[..i + 1], d[k].0)
  {
    assert data[..i + 1][..i] == data[..i];
    forall k | 0 <= k < |d| ensures d[k].1 == WeightedSum(data[..i + 1], d[k].0) {
      WeightedSumStep(data, i, d[k].0);
    }
  }

  /** With no positive total the dict is reported as accumulated. */
  lemma RawValues(d: seq<(string, real)>, data: seq<PredictionData>)
    requires AllAccuraciesKnown(data) && !(TotalWeight(data) > 0.0)
    requires Keys(d) == ClassOrder(data)
    requires forall k :: 0 <= k < |d| ==> d[k].1 == WeightedSum(data, d[k].0)
    ensures Values(d) == NormalizedValues(data)
  {
    forall k | 0 <= k < |d| ensures Values(d)[k] == NormalizedValues(data)[k] {
      assert Keys(d)[k] == d[k].0;
    }
  }

  lemma WeightedSumStep(data: seq<PredictionData>, i: nat, c: string)
    requires i < |data| && AllAccuraciesKnown(data[..i + 1])
    ensures WeightedSum(data[..i + 1], c) ==
            WeightedSum(data[..i], c) + WeightedProbability(data[i].classProbabilities, Weight(data[i]), c)
  {
    assert data[..i + 1][..i] == data[..i];
  }

  /** Every entry of `d` holds its class's weighted sum over `prefix` plus its weighted
      probability in `items`. */
  ghost predicate Accumulated(d: seq<(string, real)>, prefix: seq<PredictionData>,
                              items: seq<(string, real)>, w: real)
    requires AllAccuraciesKnown(prefix)
  {
    forall k :: 0 <= k < |d| ==>
      d[k].1 == WeightedSum(prefix, d[k].0) + WeightedProbability(items, w, d[k].0)
  }

  /** The inner loop: `weighted[c] += p * w` for each entry `(c, p)` of one record's map,
      creating the entry at zero the first time a class is seen. */
  method AddRecord(weighted: seq<(string, real)>, items: seq<(string, real)>, w: real,
                   ghost prefix: seq<PredictionData>)
    returns (d: seq<(string, real)>)
    requires AllAccuraciesKnown(prefix)
    requires Keys(weighted) == ClassOrder(prefix)
    requires forall k :: 0 <= k < |weighted| ==> weighted[k].1 == WeightedSum(prefix, weighted[k].0)
    ensures Keys(d) == FirstOccurrences(AllClasses(prefix) + Keys(items))
    ensures forall k :: 0 <= k < |d| ==>
      d[k].1 == WeightedSum(prefix, d[k].0) + WeightedProbability(items, w, d[k].0)
  {
    ghost var before := AllClasses(prefix);
    assert before + Keys(items[..0]) == before;
    d := weighted;
    for j := 0 to |items|
      invariant Keys(d) == FirstOccurrences(before + Keys(items[..j]))
      invariant Accumulated(d, prefix, items[..j], w)
    {
      var c, p := items[j].0, items[j].1;
      AccumulateStep(before, items, j);
      if c !in Keys(d) {
        OpenEntry(d, c, prefix, items[..j], w);
        d := Put(d, c, 0.0);
      }
      AddStep(d, c, p, w, prefix, items, j);
      d := Put(d, c, Get(d, c).value + p * w);
    }
    assert items[..|items|] == items;
  }

  /** A class seen for the first time enters the dict at zero, which is its sum so far. */
  lemma OpenEntry(d: seq<(string, real)>, c: string, prefix: seq<PredictionData>,
                  items: seq<(string, real)>, w: real)
    requires AllAccuraciesKnown(prefix)
    requires Keys(d) == FirstOccurrences(AllClasses(prefix) + Keys(items)) && c !in Keys(d)
    requires Accumulated(d, prefix, items, w)
    ensures Accumulated(Put(d, c, 0.0), prefix, items, w)
  {
    NeverSeen(prefix, items, w, c);
    PutAt(d, c, 0.0);
  }

  /** `d[c] += p * w` adds the term of entry `j` to the entry for `c` and to no other. */
  lemma AddStep(d: seq<(string, real)>, c: string, p: real, w: real,
                prefix: seq<PredictionData>, items: seq<(string, real)>, j: nat)
    requires j < |items| && items[j] == (c, p)
    requires Distinct(Keys(d)) && c in Keys(d)
    requires AllAccuraciesKnown(prefix)
    requires Accumulated(d, prefix, items[..j], w)
    ensures Accumulated(Put(d, c, Get(d, c).value + p * w), prefix, items[..j + 1], w)
  {
    var q := IndexOf(Keys(d), c);
    var x := d[q].1 + p * w;
    assert Put(d, c, Get(d, c).value + p * w) == d[q := (c, x)];
    forall k | 0 <= k < |d|
      ensures d[q := (c, x)][k].1 ==
              WeightedSum(prefix, d[k].0) + WeightedProbability(items[..j + 1], w, d[k].0)
    {
      WeightedProbabilityStep(items, w, j, d[k].0);
      if k != q {
        assert Keys(d)[k] != Keys(d)[q];
      }
    }
  }

  /** One more entry of the record's map: one more key for the first-occurrence order ... */
  lemma AccumulateStep(before: seq<string>, items: seq<(string, real)>, j: nat)
    requires j < |items|
    ensures var fo := FirstOccurrences(before + Keys(items[..j]));
      FirstOccurrences(before + Keys(items[..j + 1])) ==
      if items[j].0 in fo then fo else fo + [items[j].0]
  {
    assert Keys(items[..j + 1]) == Keys(items[..j]) + [items[j].0];
    assert before + Keys(items[..j + 1]) == (before + Keys(items[..j])) + [items[j].0];
    FirstOccurrencesStep(before + Keys(items[..j]), items[j].0);
  }

  /** ... and one more term for its class. */
  lemma WeightedProbabilityStep(items: seq<(string, real)>, w: real, j: nat, c: string)
    requires j < |items|
    ensures WeightedProbability(items[..j + 1], w, c) ==
            WeightedProbability(items[..j], w, c) + (if items[j].0 == c then items[j].1 * w else 0.0)
  {
    assert items[..j + 1][..j] == items[..j];
  }

  /** A class that has not appeared yet has weighted sum zero so far. */
  lemma NeverSeen(prefix: seq<PredictionData>, items: seq<(string, real)>, w: real, c: string)
    requires AllAccuraciesKnown(prefix)
    requires c !in FirstOccurrences(AllClasses(prefix) + Keys(items))
    ensures WeightedSum(prefix, c) == 0.0 && WeightedProbability(items, w, c) == 0.0
  {
    assert c !in AllClasses(prefix) + Keys(items);
    AbsentKeyZero(items, w, c);
    AbsentClassZero(prefix, c);
  }

  lemma {:induction false} AbsentKeyZero(m: seq<(string, real)>, w: real, c: string)
    requires c !in Keys(m)
    ensures WeightedProbability(m, w, c) == 0.0
  {
    if m != [] {
      var p := m[..|m| - 1];
      assert Keys(p) == Keys(m)[..|m| - 1];
      AbsentKeyZero(p, w, c);
    }
  }

  lemma {:induction false} AbsentClassZero(data: seq<PredictionData>, c: string)
    requires AllAccuraciesKnown(data) && c !in AllClasses(data)
    ensures WeightedSum(data, c) == 0.0
  {
    if data != [] {
      var p := data[..|data| - 1];
      AbsentClassZero(p, c);
      AbsentKeyZero(data[|data| - 1].classProbabilities, Weight(data[|data| - 1]), c);
    }
  }

  /** `for c in d: d[c] /= total` */
  method Normalize(d: seq<(string, real)>, total: real, data: seq<PredictionData>)
    returns (d': seq<(string, real)>)
    requires AllAccuraciesKnown(data) && total == TotalWeight(data) && total > 0.0
    requires Keys(d) == ClassOrder(data)
    requires forall k :: 0 <= k < |d| ==> d[k].1 == WeightedSum(data, d[k].0)
    ensures Keys(d') == ClassOrder(data)
    ensures Values(d') == NormalizedValues(data)
  {
    d' := d;
    for k := 0 to |d|
      invariant Keys(d') == Keys(d)
      invariant forall m :: 0 <= m < k ==> d'[m].1 == WeightedSum(data, d[m].0) / total
      invariant forall m :: k <= m < |d| ==> d'[m] == d[m]
    {
      GetAt(d', k);
      d' := Put(d', d'[k].0, Get(d', d'[k].0).value / total);
    }
  }

  // ---------------------------------------------------------------------------------------
  // What the average means

  /** When the total weight is positive and every record's probabilities add up to one, the
      reported probabilities add up to one as well. */
  lemma {:induction false} NormalizedSumToOne(data: seq<PredictionData>)
    requires AllAccuraciesKnown(data) && TotalWeight(data) > 0.0
    requires forall i :: 0 <= i < |data| ==> SumReals(Values(data[i].classProbabilities)) == 1.0
    ensures SumReals(NormalizedValues(data)) == 1.0
  {
    WeightedSumsTotal(data);
    NormalizedQuotients(data);
    SumOfNormalized(ClassOrder(data), data);
    SelfQuotient(TotalWeight(data));
  }

  /** Summed over the classes that occur, the weighted sums make up the total weight. */
  lemma WeightedSumsTotal(data: seq<PredictionData>)
    requires AllAccuraciesKnown(data)
    requires forall i :: 0 <= i < |data| ==> SumReals(Values(data[i].classProbabilities)) == 1.0
    ensures SumWeightedSums(ClassOrder(data), data) == TotalWeight(data)
  {
    forall c | c in AllClasses(data) ensures c in ClassOrder(data) {
      var i := IndexOf(AllClasses(data), c);
    }
    SumOfWeightedSums(ClassOrder(data), data);
  }

  lemma NormalizedQuotients(data: seq<PredictionData>)
    requires AllAccuraciesKnown(data) && TotalWeight(data) > 0.0
    ensures var ks := ClassOrder(data);
      NormalizedValues(data) ==
      seq(|ks|, i requires 0 <= i < |ks| => WeightedSum(data, ks[i]) / TotalWeight(data))
  {
  }

  lemma SelfQuotient(x: real)
    requires x > 0.0
    ensures x / x == 1.0
  {
  }

  /** With no positive weight, nothing is normalised and every class is reported at zero
      (weights are products of a non-negative accuracy and a non-negative confidence). */
  lemma {:induction false} ZeroWeightGivesZeros(data: seq<PredictionData>)
    requires AllAccuraciesKnown(data)
    requires forall i :: 0 <= i < |data| ==> 0.0 <= data[i].accuracy.value && 0.0 <= data[i].confidence
    requires TotalWeight(data) == 0.0
    ensures forall i :: 0 <= i < |NormalizedValues(data)| ==> NormalizedValues(data)[i] == 0.0
  {
    forall c { ZeroWeightSums(data, c); }
  }

  lemma {:induction false} ZeroWeightSums(data: seq<PredictionData>, c: string)
    requires AllAccuraciesKnown(data)
    requires forall i :: 0 <= i < |data| ==> 0.0 <= data[i].accuracy.value && 0.0 <= data[i].confidence
    requires TotalWeight(data) == 0.0
    ensures WeightedSum(data, c) == 0.0
  {
    if data != [] {
      var init := data[..|data| - 1];
      var last := data[|data| - 1];
      NonNegativeProduct(last.accuracy.value, last.confidence);
      TotalWeightNonNegative(init);
      ZeroWeightSums(init, c);
      ZeroWeightProbability(last.classProbabilities, c);
    }
  }

  lemma {:induction false} TotalWeightNonNegative(data: seq<PredictionData>)
    requires AllAccuraciesKnown(data)
    requires forall i :: 0 <= i < |data| ==> 0.0 <= data[i].accuracy.value && 0.0 <= data[i].confidence
    ensures 0.0 <= TotalWeight(data)
  {
    if data != [] {
      var last := data[|data| - 1];
      NonNegativeProduct(last.accuracy.value, last.confidence);
      TotalWeightNonNegative(data[..|data| - 1]);
    }
  }

  lemma {:induction false} ZeroWeightProbability(m: seq<(string, real)>, c: string)
    ensures WeightedProbability(m, 0.0, c) == 0.0
  {
    if m != [] {
      ZeroWeightProbability(m[..|m| - 1], c);
    }
  }

  /** The sum, over the classes `ks`, of the weighted sums. */
  function SumWeightedSums(ks: seq<string>, data: seq<PredictionData>): real
    requires AllAccuraciesKnown(data)
  {
    if ks == [] then 0.0 else SumWeightedSums(ks[..|ks| - 1], data) + WeightedSum(data, ks[|ks| - 1])
  }

  /** The sum, over the classes `ks`, of one map's weighted probabilities. */
  function SumWeightedProbabilities(ks: seq<string>, m: seq<(string, real)>, w: real): real
  {
    if ks == [] then 0.0
    else SumWeightedProbabilities(ks[..|ks| - 1], m, w) + WeightedProbability(m, w, ks[|ks| - 1])
  }

  /** Summing over classes commutes with summing over records. */
  lemma {:induction false} SumWeightedSumsSplit(ks: seq<string>, data: seq<PredictionData>)
    requires AllAccuraciesKnown(data) && data != []
    ensures var last := data[|data| - 1];
      SumWeightedSums(ks, data) ==
      SumWeightedSums(ks, data[..|data| - 1]) + SumWeightedProbabilities(ks, last.classProbabilities, Weight(last))
  {
    if ks != [] {
      SumWeightedSumsSplit(ks[..|ks| - 1], data);
    }
  }

  /** One more entry `(k, p)` adds `p * w` to the sum over distinct classes containing `k`. */
  lemma {:induction false} SumWeightedProbabilitiesEntry(ks: seq<string>, m: seq<(string, real)>,
                                                         k: string, p: real, w: real)
    requires Distinct(ks)
    ensures SumWeightedProbabilities(ks, m + [(k, p)], w) ==
            SumWeightedProbabilities(ks, m, w) + (if k in ks then p * w else 0.0)
  {
    if ks != [] {
      var init := ks[..|ks| - 1];
      assert Distinct(init);
      SumWeightedProbabilitiesEntry(init, m, k, p, w);
      assert (m + [(k, p)])[..|m|] == m;
      if ks[|ks| - 1] == k {
        assert k !in init;
      } else {
        assert k in ks ==> k in init;
      }
    }
  }

  /** Over distinct classes covering a map's keys, its weighted probabilities sum to its
      total probability times the weight. */
  lemma {:induction false} SumWeightedProbabilitiesOfMap(ks: seq<string>, m: seq<(string, real)>, w: real)
    requires Distinct(ks)
    requires forall i :: 0 <= i < |m| ==> m[i].0 in ks
    ensures SumWeightedProbabilities(ks, m, w) == SumReals(Values(m)) * w
  {
    if m == [] {
      ZeroProbabilitiesOfEmpty(ks, w);
    } else {
      var init := m[..|m| - 1];
      forall i | 0 <= i < |init| ensures init[i].0 in ks {
        assert init[i] == m[i];
      }
      SumWeightedProbabilitiesOfMap(ks, init, w);
      assert m == init + [m[|m| - 1]];
      OfMapStep(ks, init, m[|m| - 1].0, m[|m| - 1].1, w);
    }
  }

  lemma OfMapStep(ks: seq<string>, init: seq<(string, real)>, k: string, p: real, w: real)
    requires Distinct(ks) && k in ks
    requires SumWeightedProbabilities(ks, init, w) == SumReals(Values(init)) * w
    ensures SumWeightedProbabilities(ks, init + [(k, p)], w) == SumReals(Values(init + [(k, p)])) * w
  {
    SumWeightedProbabilitiesEntry(ks, init, k, p, w);
    ValuesAppendSum(init, k, p);
    Distribute(SumWeightedProbabilities(ks, init + [(k, p)], w), SumWeightedProbabilities(ks, init, w),
               SumReals(Values(init)), p, SumReals(Values(init + [(k, p)])), w);
  }

  lemma ValuesAppendSum(init: seq<(string, real)>, k: string, p: real)
    ensures SumReals(Values(init + [(k, p)])) == SumReals(Values(init)) + p
  {
    assert Values(init + [(k, p)]) == Values(init) + [p];
    SumRealsAppend(Values(init), p);
  }

  lemma {:induction false} ZeroProbabilitiesOfEmpty(ks: seq<string>, w: real)
    ensures SumWeightedProbabilities(ks, [], w) == 0.0
  {
    if ks != [] {
      ZeroProbabilitiesOfEmpty(ks[..|ks| - 1], w);
    }
  }

  /** The arithmetic of one induction step: `total * w` grows by `p * w` with `p`. */
  lemma Distribute(sum: real, before: real, a: real, p: real, total: real, w: real)
    requires before == a * w && sum == before + p * w && total == a + p
    ensures sum == total * w
  {
  }

  /** Over distinct classes covering every class, the weighted sums add up to the total
      weight when every record's probabilities add up to one. */
  lemma {:induction false} SumOfWeightedSums(ks: seq<string>, data: seq<PredictionData>)
    requires AllAccuraciesKnown(data) && Distinct(ks)
    requires forall c :: c in AllClasses(data) ==> c in ks
    requires forall i :: 0 <= i < |data| ==> SumReals(Values(data[i].classProbabilities)) == 1.0
    ensures SumWeightedSums(ks, data) == TotalWeight(data)
  {
    if data == [] {
      ZeroSumsOfEmpty(ks);
    } else {
      var init := data[..|data| - 1];
      var last := data[|data| - 1];
      assert AllClasses(data) == AllClasses(init) + Keys(last.classProbabilities);
      SumWeightedSumsSplit(ks, data);
      SumOfWeightedSums(ks, init);
      forall i | 0 <= i < |last.classProbabilities| ensures last.classProbabilities[i].0 in ks {
        assert Keys(last.classProbabilities)[i] in AllClasses(data);
      }
      SumWeightedProbabilitiesOfMap(ks, last.classProbabilities, Weight(last));
    }
  }

  lemma {:induction false} ZeroSumsOfEmpty(ks: seq<string>)
    ensures SumWeightedSums(ks, []) == 0.0
  {
    if ks != [] {
      ZeroSumsOfEmpty(ks[..|ks| - 1]);
    }
  }

  /** Dividing every weighted sum by the total weight divides their sum by it. */
  lemma {:induction false} SumOfNormalized(ks: seq<string>, data: seq<PredictionData>)
    requires AllAccuraciesKnown(data) && TotalWeight(data) > 0.0
    ensures SumReals(seq(|ks|, i requires 0 <= i < |ks| => WeightedSum(data, ks[i]) / TotalWeight(data))) ==
            SumWeightedSums(ks, data) / TotalWeight(data)
  {
    var tw := TotalWeight(data);
    var xs := seq(|ks|, i requires 0 <= i < |ks| => WeightedSum(data, ks[i]) / tw);
    if ks != [] {
      var init := ks[..|ks| - 1];
      SumOfNormalized(init, data);
      assert xs[..|xs| - 1] == seq(|init|, i requires 0 <= i < |init| => WeightedSum(data, init[i]) / tw);
      DivideSum(SumWeightedSums(init, data), WeightedSum(data, ks[|ks| - 1]), tw);
    }
  }

  lemma DivideSum(a: real, b: real, w: real)
    requires w > 0.0
    ensures a / w + b / w == (a + b) / w
  {
  }
}
