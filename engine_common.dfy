/** What `MLInferenceEngine` (ml_engine.py) and `MockMLInferenceEngine` (mock_ml_engine.py)
    share: the model row they read, the cache key, the input-type dispatch, the default
    output classes, the class-to-probability dict and the shape of an inference result. */
module Engine {
  import opened Base

  /** The keys of `preprocessing_config` the tabular preprocessor reads; a missing key reads
      as the empty list or dict. */
  datatype PreprocessingConfig = PreprocessingConfig(
    featureColumns: seq<string>,
    defaultValues: seq<(string, real)>)

  /** The fields of a `MedicalModel` row the engines use. `output_classes` is a JSON list
      that may be empty (its default); a JSON null is as falsy and is read the same way. */
  datatype MedicalModel = MedicalModel(
    id: nat,
    name: string,
    version: string,
    framework: string,
    inputTypeName: string,
    outputClasses: seq<string>,
    config: PreprocessingConfig)

  // ---------------------------------------------------------------------------------------
  // Cache key

  /** `f"{medical_model.id}_{medical_model.version}"` */
  function CacheKey(id: nat, version: string): (k: string)
    ensures |k| == |NatToString(id)| + 1 + |version|
  {
    NatToString(id) + "_" + version
  }

  /** The key is the first underscore's position after the decimal id. */
  lemma FirstUnderscore(id: nat, version: string, p: nat)
    requires p < |CacheKey(id, version)| && CacheKey(id, version)[p] == '_'
    ensures |NatToString(id)| <= p
  {
    var s := NatToString(id);
    assert forall i :: 0 <= i < |s| ==> CacheKey(id, version)[i] == s[i];
  }

  /** Different (id, version) pairs never share a cache slot: an id has no underscore. */
  lemma CacheKeyInjective(a: nat, v: string, b: nat, w: string)
    requires CacheKey(a, v) == CacheKey(b, w)
    ensures a == b && v == w
  {
    var k := CacheKey(a, v);
    var sa := NatToString(a);
    var sb := NatToString(b);
    assert k[|sa|] == '_';
    assert CacheKey(b, w)[|sb|] == '_';
    FirstUnderscore(b, w, |sa|);
    FirstUnderscore(a, v, |sb|);
    assert sa == k[..|sa|] && sb == k[..|sb|];
    NatToStringInjective(a, b);
    assert v == k[|sa| + 1..] && w == k[|sb| + 1..];
  }

  // ---------------------------------------------------------------------------------------
  // Input-type dispatch (`preprocess_input`)

  datatype Route = MriImage | GeneralImage | TabularData

  const ImageTypes: seq<string> := ["image", "xray", "ct", "ultrasound"]
  const TabularTypes: seq<string> := ["tabular", "structured", "data"]

  /** The preprocessor the lowercased input type selects; any other name raises. */
  function RouteFor(inputType: string): (r: Result<Route>)
    ensures r == Ok(MriImage) <==> Lower(inputType) == "mri"
    ensures r == Ok(GeneralImage) <==> Lower(inputType) in ImageTypes
    ensures r == Ok(TabularData) <==> Lower(inputType) in TabularTypes
    ensures r.Err? <==> Lower(inputType) != "mri" && Lower(inputType) !in ImageTypes + TabularTypes
    ensures r.Err? ==> r.error == Exception(ValueError, "Unsupported input type: " + inputType)
  {
    var t := Lower(inputType);
    if t == "mri" then Ok(MriImage)
    else if t in ImageTypes then Ok(GeneralImage)
    else if t in TabularTypes then Ok(TabularData)
    else Err(Exception(ValueError, "Unsupported input type: " + inputType))
  }

  /** The dispatch ignores letter case. */
  lemma RouteIgnoresCase(s: string, t: string)
    requires Lower(s) == Lower(t)
    ensures RouteFor(s).Ok? == RouteFor(t).Ok?
    ensures RouteFor(s).Ok? ==> RouteFor(s).value == RouteFor(t).value
  {
  }

  /** `X-ray` lowercases to `x-ray`, which is none of the listed names. */
  lemma HyphenatedXrayRejected()
    ensures RouteFor("X-ray").Err?
    ensures RouteFor("MRI") == Ok(MriImage)
  {
    assert Lower("X-ray") == "x-ray";
    assert Lower("MRI") == "mri";
  }

  // ---------------------------------------------------------------------------------------
  // Prediction shaping

  /** `medical_model.output_classes or ['class_0', 'class_1']` */
  function OutputClasses(m: MedicalModel): (cs: seq<string>)
    ensures cs != []
    ensures m.outputClasses != [] ==> cs == m.outputClasses
    ensures m.outputClasses == [] ==> cs == ["class_0", "class_1"]
  {
    if m.outputClasses == [] then ["class_0", "class_1"] else m.outputClasses
  }

  /** `class_probabilities[class_name] = values[i]` for each `i` in turn. */
  function ClassMap(classes: seq<string>, values: seq<real>): (d: seq<(string, real)>)
    requires |classes| <= |values|
    ensures Keys(d) == FirstOccurrences(classes)
    ensures forall u :: 0 <= u < |d| ==> d[u].1 == values[LastIndexOf(classes, d[u].0)]
  {
    if classes == [] then []
    else
      var n := |classes| - 1;
      var prev := ClassMap(classes[..n], values);
      ClassMapStep(classes, values, n, prev);
      Put(prev, classes[n], values[n])
  }

  lemma ClassMapStep(classes: seq<string>, values: seq<real>, n: nat, prev: seq<(string, real)>)
    requires n < |classes| <= |values| && n + 1 == |classes|
    requires Keys(prev) == FirstOccurrences(classes[..n])
    requires forall u :: 0 <= u < |prev| ==> prev[u].1 == values[LastIndexOf(classes[..n], prev[u].0)]
    ensures Keys(Put(prev, classes[n], values[n])) == FirstOccurrences(classes)
    ensures var d := Put(prev, classes[n], values[n]);
      forall u :: 0 <= u < |d| ==> d[u].1 == values[LastIndexOf(classes, d[u].0)]
  {
    KeysStep(classes, n, prev, values[n]);
    assert classes[..n + 1] == classes;
    forall u | 0 <= u < |Put(prev, classes[n], values[n])|
      ensures Put(prev, classes[n], values[n])[u].0 in classes
      ensures Put(prev, classes[n], values[n])[u].1 ==
              values[LastIndexOf(classes, Put(prev, classes[n], values[n])[u].0)]
    {
      ClassMapStepAt(classes, values, n, prev, u);
    }
  }

  lemma ClassMapStepAt(classes: seq<string>, values: seq<real>, n: nat, prev: seq<(string, real)>, u: nat)
    requires n < |classes| <= |values| && n + 1 == |classes|
    requires Keys(prev) == FirstOccurrences(classes[..n])
    requires forall u :: 0 <= u < |prev| ==> prev[u].1 == values[LastIndexOf(classes[..n], prev[u].0)]
    requires u < |Put(prev, classes[n], values[n])|
    ensures Put(prev, classes[n], values[n])[u].0 in classes
    ensures Put(prev, classes[n], values[n])[u].1 ==
            values[LastIndexOf(classes, Put(prev, classes[n], values[n])[u].0)]
  {
    var k := classes[n];
    var v := values[n];
    PutAt(prev, k, v);
    assert classes[..n + 1] == classes;
    if u < |prev| && prev[u].0 != k {
      var x := prev[u].0;
      assert Put(prev, k, v)[u] == prev[u];
      assert Keys(prev)[u] == x;
      assert x in classes[..n];
      assert x in classes by {
        var q :| 0 <= q < n && classes[..n][q] == x;
        assert classes[q] == x;
      }
      LastIndexOfStep(classes, n, x);
    } else {
      assert Put(prev, k, v)[u] == (k, v);
      LastIndexOfStep(classes, n, k);
    }
  }

  /** With distinct class names the dict pairs each class with its own value, in order. */
  lemma {:induction false} ClassMapOfDistinct(classes: seq<string>, values: seq<real>)
    requires |classes| <= |values| && Distinct(classes)
    ensures |ClassMap(classes, values)| == |classes|
    ensures forall i :: 0 <= i < |classes| ==> ClassMap(classes, values)[i] == (classes[i], values[i])
  {
    var d := ClassMap(classes, values);
    FirstOccurrencesOfDistinct(classes);
    forall i | 0 <= i < |classes| ensures d[i] == (classes[i], values[i]) {
      assert Keys(d)[i] == classes[i];
      DistinctLastIndex(classes, i);
    }
  }

  /** The first `n` values, padded with zeros: what truncating or `np.pad`-ing to the number of
      classes yields, and what the mock's `i < len(predictions)` test reads. */
  function Fit(values: seq<real>, n: nat): (r: seq<real>)
    ensures |r| == n
    ensures forall i :: 0 <= i < n ==> r[i] == if i < |values| then values[i] else 0.0
  {
    seq(n, i requires 0 <= i < n => if i < |values| then values[i] else 0.0)
  }

  /** The dict `process_predictions` returns. */
  datatype ProcessedPrediction = ProcessedPrediction(
    predictedClass: string,
    confidence: real,
    classProbabilities: seq<(string, real)>,
    rawPredictions: seq<real>)

  /** The dict `run_inference` returns: `success` is the constructor. */
  datatype InferenceOutcome =
    | Success(predictions: ProcessedPrediction, modelName: string, modelVersion: string, framework: string)
    | Failure(error: string, modelName: string, modelVersion: string)
}
