/** `ComparativeAnalyzer._analyze_model_performance`: the records ranked by confidence, and
    the fastest, the most confident and the most accurate model. */
module Performance {
  import opened Base
  import opened Records

  /** One entry of `performance_data`. */
  datatype PerformanceEntry = PerformanceEntry(
    modelName: string,
    modelId: nat,
    confidence: real,
    processingTime: Option<real>,
    modelAccuracy: Option<real>,
    predictedClass: string)

  datatype PerformanceReport = PerformanceReport(
    modelsByConfidence: seq<PerformanceEntry>,
    fastestModel: PerformanceEntry,
    mostConfidentModel: PerformanceEntry,
    highestAccuracyModel: PerformanceEntry)

  function EntryOf(p: PredictionData): PerformanceEntry {
    PerformanceEntry(p.modelName, p.modelId, p.confidence, p.processingTime, p.accuracy, p.predictedClass)
  }

  /** The entries in input order. */
  function Entries(data: seq<PredictionData>): (r: seq<PerformanceEntry>)
    ensures |r| == |data|
    ensures forall i :: 0 <= i < |data| ==> r[i] == EntryOf(data[i])
  {
    seq(|data|, i requires 0 <= i < |data| => EntryOf(data[i]))
  }

  // ---------------------------------------------------------------------------------------
  // Sorting by confidence, descending and stable (`list.sort(key=..., reverse=True)`)

  ghost predicate SortedDescending(s: seq<PerformanceEntry>) {
    forall i, j :: 0 <= i < j < |s| ==> s[j].confidence <= s[i].confidence
  }

  /** The entries of `s` with confidence `c`, in their order in `s`. */
  function WithConfidence(s: seq<PerformanceEntry>, c: real): seq<PerformanceEntry>
  {
    if s == [] then []
    else WithConfidence(s[..|s| - 1], c) + (if s[|s| - 1].confidence == c then [s[|s| - 1]] else [])
  }

  /** Places `x` after every entry of the sorted `t` whose confidence is at least its own. */
  function Insert(t: seq<PerformanceEntry>, x: PerformanceEntry): (r: seq<PerformanceEntry>)
    ensures |r| == |t| + 1
  {
    if t == [] then [x]
    else if t[0].confidence < x.confidence then [x] + t
    else [t[0]] + Insert(t[1..], x)
  }

  /** Insertion sort, each new entry going after the equal ones already placed. */
  function SortByConfidence(s: seq<PerformanceEntry>): (r: seq<PerformanceEntry>)
    ensures |r| == |s|
  {
    if s == [] then []
    else Insert(SortByConfidence(s[..|s| - 1]), s[|s| - 1])
  }

  lemma {:induction false} InsertPermutes(t: seq<PerformanceEntry>, x: PerformanceEntry)
    ensures multiset(Insert(t, x)) == multiset(t) + multiset{x}
  {
    if t != [] && x.confidence <= t[0].confidence {
      assert t == [t[0]] + t[1..];
      InsertPermutes(t[1..], x);
    }
  }

  /** The ranking holds the same entries as its input, each as often. */
  lemma {:induction false} SortPermutes(s: seq<PerformanceEntry>)
    ensures multiset(SortByConfidence(s)) == multiset(s)
  {
    if s != [] {
      assert s == s[..|s| - 1] + [s[|s| - 1]];
      SortPermutes(s[..|s| - 1]);
      InsertPermutes(SortByConfidence(s[..|s| - 1]), s[|s| - 1]);
    }
  }

  ghost predicate AllAtMost(s: seq<PerformanceEntry>, b: real) {
    forall i :: 0 <= i < |s| ==> s[i].confidence <= b
  }

  lemma SortedTail(t: seq<PerformanceEntry>)
    requires SortedDescending(t) && t != []
    ensures SortedDescending(t[1..]) && AllAtMost(t[1..], t[0].confidence)
  {
    var rest := t[1..];
    forall i | 0 <= i < |rest| ensures rest[i] == t[i + 1] {}
  }

  lemma SortedCons(y: PerformanceEntry, s: seq<PerformanceEntry>)
    requires SortedDescending(s) && AllAtMost(s, y.confidence)
    ensures SortedDescending([y] + s)
  {
    var r := [y] + s;
    forall i | 0 < i < |r| ensures r[i] == s[i - 1] {}
  }

  lemma {:induction false} InsertAtMost(t: seq<PerformanceEntry>, x: PerformanceEntry, b: real)
    requires AllAtMost(t, b) && x.confidence <= b
    ensures AllAtMost(Insert(t, x), b)
  {
    if t != [] && x.confidence <= t[0].confidence {
      var rest := t[1..];
      assert AllAtMost(rest, b) by {
        forall i | 0 <= i < |rest| ensures rest[i] == t[i + 1] {}
      }
      InsertAtMost(rest, x, b);
      var ins := Insert(rest, x);
      forall i | 0 < i < |[t[0]] + ins| ensures ([t[0]] + ins)[i] == ins[i - 1] {}
    } else if t != [] {
      forall i | 0 < i < |[x] + t| ensures ([x] + t)[i] == t[i - 1] {}
    }
  }

  lemma {:induction false} InsertSorted(t: seq<PerformanceEntry>, x: PerformanceEntry)
    requires SortedDescending(t)
    ensures SortedDescending(Insert(t, x))
  {
    if t == [] {
    } else if t[0].confidence < x.confidence {
      forall i | 0 <= i < |t| ensures t[i].confidence <= x.confidence {
        if i > 0 { assert t[i].confidence <= t[0].confidence; }
      }
      SortedCons(x, t);
    } else {
      SortedTail(t);
      var rest := t[1..];
      InsertSorted(rest, x);
      InsertAtMost(rest, x, t[0].confidence);
      SortedCons(t[0], Insert(rest, x));
    }
  }

  /** `models_by_confidence` is ordered. */
  lemma {:induction false} SortedByConfidence(s: seq<PerformanceEntry>)
    ensures SortedDescending(SortByConfidence(s))
  {
    if s != [] {
      SortedByConfidence(s[..|s| - 1]);
      InsertSorted(SortByConfidence(s[..|s| - 1]), s[|s| - 1]);
    }
  }

  lemma {:induction false} WithConfidenceAppend(s: seq<PerformanceEntry>, y: PerformanceEntry, c: real)
    ensures WithConfidence(s + [y], c) == WithConfidence(s, c) + (if y.confidence == c then [y] else [])
  {
    assert (s + [y])[..|s|] == s;
  }

  lemma {:induction false} WithConfidenceCons(y: PerformanceEntry, s: seq<PerformanceEntry>, c: real)
    ensures WithConfidence([y] + s, c) == (if y.confidence == c then [y] else []) + WithConfidence(s, c)
  {
    if s == [] {
      assert [y] + s == [y];
      assert [y][..0] == [];
    } else {
      var init := s[..|s| - 1];
      var last := s[|s| - 1];
      var first := if y.confidence == c then [y] else [];
      var next := if last.confidence == c then [last] else [];
      WithConfidenceCons(y, init, c);
      assert WithConfidence([y] + s, c) == WithConfidence([y] + init, c) + next by {
        assert [y] + s == ([y] + init) + [last];
        WithConfidenceAppend([y] + init, last, c);
      }
      assert WithConfidence(s, c) == WithConfidence(init, c) + next by {
        assert s == init + [last];
        WithConfidenceAppend(init, last, c);
      }
      assert (first + WithConfidence(init, c)) + next == first + (WithConfidence(init, c) + next);
    }
  }

  /** No entry of a list sorted descending whose first confidence is below `c` has confidence `c`. */
  lemma {:induction false} NoneWithConfidence(t: seq<PerformanceEntry>, c: real)
    requires SortedDescending(t) && t != [] && t[0].confidence < c
    ensures WithConfidence(t, c) == []
  {
    if |t| > 1 {
      var init := t[..|t| - 1];
      assert SortedDescending(init) by {
        forall i, j | 0 <= i < j < |init| ensures init[j].confidence <= init[i].confidence {
          assert init[i] == t[i] && init[j] == t[j];
        }
      }
      assert init[0] == t[0];
      NoneWithConfidence(init, c);
    }
  }

  lemma {:induction false} InsertStable(t: seq<PerformanceEntry>, x: PerformanceEntry, c: real)
    requires SortedDescending(t)
    ensures WithConfidence(Insert(t, x), c) ==
            WithConfidence(t, c) + (if x.confidence == c then [x] else [])
  {
    if t == [] {
      assert [x] == [] + [x];
      WithConfidenceAppend([], x, c);
    } else if t[0].confidence < x.confidence {
      InsertBefore(t, x, c);
    } else {
      SortedTail(t);
      InsertStable(t[1..], x, c);
      InsertAfterHead(t, x, c);
    }
  }

  /** When `x` goes after the head, the head's contribution comes first on both sides. */
  lemma InsertAfterHead(t: seq<PerformanceEntry>, x: PerformanceEntry, c: real)
    requires t != [] && x.confidence <= t[0].confidence
    requires WithConfidence(Insert(t[1..], x), c) ==
             WithConfidence(t[1..], c) + (if x.confidence == c then [x] else [])
    ensures WithConfidence(Insert(t, x), c) ==
            WithConfidence(t, c) + (if x.confidence == c then [x] else [])
  {
    var rest := t[1..];
    var head := if t[0].confidence == c then [t[0]] else [];
    var added := if x.confidence == c then [x] else [];
    assert WithConfidence(Insert(t, x), c) == head + WithConfidence(Insert(rest, x), c) by {
      assert Insert(t, x) == [t[0]] + Insert(rest, x);
      WithConfidenceCons(t[0], Insert(rest, x), c);
    }
    assert WithConfidence(t, c) == head + WithConfidence(rest, c) by {
      assert [t[0]] + rest == t;
      WithConfidenceCons(t[0], rest, c);
    }
    assert head + (WithConfidence(rest, c) + added) == (head + WithConfidence(rest, c)) + added;
  }

  lemma InsertBefore(t: seq<PerformanceEntry>, x: PerformanceEntry, c: real)
    requires SortedDescending(t) && t != [] && t[0].confidence < x.confidence
    ensures WithConfidence([x] + t, c) ==
            WithConfidence(t, c) + (if x.confidence == c then [x] else [])
  {
    WithConfidenceCons(x, t, c);
    if x.confidence == c {
      NoneWithConfidence(t, c);
    }
  }

  /** Stability: for every confidence value, the entries with that value keep their input
      order. With `SortedByConfidence` and the multiset ensures this pins down the result. */
  lemma {:induction false} SortStable(s: seq<PerformanceEntry>, c: real)
    ensures WithConfidence(SortByConfidence(s), c) == WithConfidence(s, c)
  {
    if s != [] {
      var init := s[..|s| - 1];
      assert s == init + [s[|s| - 1]];
      SortStable(init, c);
      SortedByConfidence(init);
      InsertStable(SortByConfidence(init), s[|s| - 1], c);
      WithConfidenceAppend(init, s[|s| - 1], c);
    }
  }

  // ---------------------------------------------------------------------------------------
  // Extremes by key

  /** `x['processing_time'] or float('inf')`: a missing time and a time of zero are both
      falsy and count as infinitely slow. */
  datatype TimeKey = Finite(t: real) | Infinite

  function TimeKeyOf(e: PerformanceEntry): TimeKey {
    if e.processingTime.None? || e.processingTime.value == 0.0 then Infinite
    else Finite(e.processingTime.value)
  }

  predicate TimeLess(a: TimeKey, b: TimeKey) {
    a.Finite? && (b.Infinite? || a.t < b.t)
  }

  /** `x['model_accuracy'] or 0`: a missing accuracy counts as zero. */
  function AccuracyKey(e: PerformanceEntry): real {
    if e.modelAccuracy.None? then 0.0 else e.modelAccuracy.value
  }

  /** The first entry with the least time key (`min` keeps the earlier of equal keys). */
  function FastestIndex(s: seq<PerformanceEntry>): (k: nat)
    requires s != []
    ensures k < |s|
    ensures forall j :: 0 <= j < |s| ==> !TimeLess(TimeKeyOf(s[j]), TimeKeyOf(s[k]))
    ensures forall j :: 0 <= j < k ==> TimeLess(TimeKeyOf(s[k]), TimeKeyOf(s[j]))
  {
    if |s| == 1 then 0
    else
      var k := FastestIndex(s[..|s| - 1]);
      assert forall j :: 0 <= j < |s| - 1 ==> s[..|s| - 1][j] == s[j];
      if TimeLess(TimeKeyOf(s[|s| - 1]), TimeKeyOf(s[k])) then |s| - 1 else k
  }

  /** The first entry with the largest key (`max` keeps the earlier of equal keys). */
  function FirstMaxBy(s: seq<PerformanceEntry>, rank: RankKey): (k: nat)
    requires s != []
    ensures k < |s|
    ensures forall j :: 0 <= j < |s| ==> Key(s[j], rank) <= Key(s[k], rank)
    ensures forall j :: 0 <= j < k ==> Key(s[j], rank) < Key(s[k], rank)
  {
    if |s| == 1 then 0
    else
      var k := FirstMaxBy(s[..|s| - 1], rank);
      assert forall j :: 0 <= j < |s| - 1 ==> s[..|s| - 1][j] == s[j];
      if Key(s[|s| - 1], rank) > Key(s[k], rank) then |s| - 1 else k
  }

  /** The two keys `max` is taken by. */
  datatype RankKey = ByConfidence | ByAccuracy

  function Key(e: PerformanceEntry, rank: RankKey): real {
    if rank == ByAccuracy then AccuracyKey(e) else e.confidence
  }

  // ---------------------------------------------------------------------------------------
  // The stage

  /** Builds `performance_data` in input order, then ranks it and picks the extremes; with
      no record `min` of an empty list raises. */
  method AnalyzeModelPerformance(data: seq<PredictionData>) returns (r: Result<PerformanceReport>)
    ensures r.Err? <==> data == []
    ensures r.Err? ==> r.error.kind == ValueError
    ensures r.Ok? ==>
      var ranked := SortByConfidence(Entries(data));
      && r.value.modelsByConfidence == ranked
      && r.value.fastestModel == ranked[FastestIndex(ranked)]
      && r.value.mostConfidentModel == ranked[FirstMaxBy(ranked, ByConfidence)]
      && r.value.highestAccuracyModel == ranked[FirstMaxBy(ranked, ByAccuracy)]
  {
    var performance: seq<PerformanceEntry> := [];
    for i := 0 to |data|
      invariant performance == Entries(data[..i])
    {
      assert Entries(data[..i + 1]) == Entries(data[..i]) + [EntryOf(data[i])];
      performance := performance + [EntryOf(data[i])];
    }
    assert data[..|data|] == data;
    performance := SortByConfidence(performance);
    if performance == [] {
      return Err(Exception(ValueError, "min() arg is an empty sequence"));
    }
    r := Ok(PerformanceReport(performance, performance[FastestIndex(performance)],
                              performance[FirstMaxBy(performance, ByConfidence)],
                              performance[FirstMaxBy(performance, ByAccuracy)]));
  }

  /** `models_by_confidence` holds exactly the records' entries, sorted and stable; the most
      confident model is its first entry. */
  lemma {:induction false} RankingFacts(data: seq<PredictionData>)
    requires data != []
    ensures var ranked := SortByConfidence(Entries(data));
      && multiset(ranked) == multiset(Entries(data))
      && SortedDescending(ranked)
      && (forall c :: WithConfidence(ranked, c) == WithConfidence(Entries(data), c))
      && FirstMaxBy(ranked, ByConfidence) == 0
  {
    var entries := Entries(data);
    var ranked := SortByConfidence(entries);
    SortedByConfidence(entries);
    SortPermutes(entries);
    forall c ensures WithConfidence(ranked, c) == WithConfidence(entries, c) {
      SortStable(entries, c);
    }
    FirstIsMostConfident(ranked);
  }

  lemma FirstIsMostConfident(s: seq<PerformanceEntry>)
    requires SortedDescending(s) && s != []
    ensures FirstMaxBy(s, ByConfidence) == 0
  {
  }
}
