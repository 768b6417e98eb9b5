/** `MockMLInferenceEngine` and `MockModelLoader` (mock_ml_engine.py): the stand-in engine
    used when no framework is installed. It caches the dict its loader builds under the same
    key as the real engine and dispatches on the input type the same way, but every mock
    preprocessor starts with `np.random.random(...)`, an attribute the function
    `MockNumpy.random` does not have, so its inference never gets past preprocessing. */
module MockEngine {
  import opened Base
  import opened Engine

  // ---------------------------------------------------------------------------------------
  // The loader

  /** The dict `MockModelLoader.load_model` returns. */
  datatype MockModelInfo = MockModelInfo(model: string, medicalModel: MedicalModel, config: PreprocessingConfig)

  const MockPrefix: string := "mock_model_"

  /** `f"mock_model_{medical_model.id}"` */
  function MockModelName(id: nat): (s: string)
    ensures |MockPrefix| < |s| && s[..|MockPrefix|] == MockPrefix
    ensures forall i :: |MockPrefix| <= i < |s| ==> IsDigit(s[i])
    ensures ParseDigits(s[|MockPrefix|..]) == id
  {
    var digits := NatToString(id);
    var s := MockPrefix + digits;
    assert s[|MockPrefix|..] == digits;
    ParseNatToString(id);
    s
  }

  /** The loader never raises: it names the model after its id and keeps the row and its
      preprocessing config. */
  function LoadMockModel(m: MedicalModel): (info: MockModelInfo)
    ensures info.medicalModel == m && info.config == m.config
    ensures info.model == MockModelName(m.id)
  {
    MockModelInfo(MockModelName(m.id), m, m.config)
  }

  /** Different ids give different mock model names: the id can be read back from the name. */
  lemma MockModelNameInjective(a: nat, b: nat)
    requires MockModelName(a) == MockModelName(b)
    ensures a == b
  {
    var p := |MockPrefix|;
    assert MockModelName(a)[p..] == MockModelName(b)[p..];
  }

  // ---------------------------------------------------------------------------------------
  // Preprocessing

  /** The message Python gives for `np.random.random`: `np.random` is the plain function
      `MockNumpy.random`, which has no attribute `random`. */
  const NoRandomAttribute: string := "'function' object has no attribute 'random'"

  /** `preprocess_input` in the mock always raises: the input-type dispatch is the real
      engine's (`RouteFor`), an unknown type raising its `ValueError`, and each of the three
      preprocessors it can select fails on its `np.random.random` lookup. */
  function PreprocessInput(inputType: string): (e: Exception)
    ensures RouteFor(inputType).Err? ==> e == RouteFor(inputType).error && e.kind == ValueError
    ensures RouteFor(inputType).Ok? ==> e == Exception(AttributeError, NoRandomAttribute)
  {
    match RouteFor(inputType)
    case Err(error) => error
    case Ok(_) => Exception(AttributeError, NoRandomAttribute)
  }

  // ---------------------------------------------------------------------------------------
  // Shaping predictions

  /** What `process_predictions` may be handed: a Python list, on which the mock's `argmax`
      takes the first maximum but which has no `.tolist()`, or an array-like object with
      `len`, indexing and `.tolist()`, for which the mock's `argmax` answers 0. */
  datatype MockPredictions = PlainList(values: seq<real>) | ArrayLike(values: seq<real>)

  /** The mock's `process_predictions`: one dict entry per output class, the class's value
      where the input has one and 0.0 past its end. A list input always raises: `max` of an
      empty list, else an index past the class list, else the missing `.tolist()`. An
      array-like input predicts the first class with the first value, which an empty input
      does not have. */
  method ProcessPredictions(predictions: MockPredictions, m: MedicalModel) returns (r: Result<ProcessedPrediction>)
    ensures var classes := OutputClasses(m);
      var vs := predictions.values;
      && (predictions.PlainList? ==> r.Err?)
      && (predictions.PlainList? && vs == [] ==> r.error.kind == ValueError)
      && (predictions.PlainList? && vs != [] && |classes| <= FirstMaxIndex(vs) ==> r.error.kind == IndexError)
      && (predictions.PlainList? && vs != [] && FirstMaxIndex(vs) < |classes| ==>
            r.error == Exception(AttributeError, "'list' object has no attribute 'tolist'"))
      && (predictions.ArrayLike? ==> (r.Err? <==> vs == []))
      && (predictions.ArrayLike? && vs == [] ==> r.error.kind == IndexError)
    ensures r.Ok? ==>
      var classes := OutputClasses(m);
      var vs := predictions.values;
      && r.value.predictedClass == classes[0]
      && r.value.confidence == vs[0]
      && r.value.rawPredictions == vs
      && r.value.classProbabilities == ClassMap(classes, Fit(vs, |classes|))
  {
    var classes := OutputClasses(m);
    var vs := predictions.values;
    var classProbabilities := FillProbabilities(classes, vs);
    if predictions.PlainList? {
      if vs == [] {
        return Err(Exception(ValueError, "max() arg is an empty sequence"));
      }
      var k := FirstMaxIndex(vs);
      if k >= |classes| {
        return Err(Exception(IndexError, "list index out of range"));
      }
      return Err(Exception(AttributeError, "'list' object has no attribute 'tolist'"));
    }
    if vs == [] {
      return Err(Exception(IndexError, "index 0 is out of bounds for axis 0 with size 0"));
    }
    r := Ok(ProcessedPrediction(classes[0], vs[0], classProbabilities, vs));
  }

  /** The mock's loop over the class names: each class gets the value at its position, or
      0.0 once the values run out. */
  method FillProbabilities(classes: seq<string>, vs: seq<real>) returns (d: seq<(string, real)>)
    ensures d == ClassMap(classes, Fit(vs, |classes|))
  {
    ghost var fitted := Fit(vs, |classes|);
    d := [];
    for i := 0 to |classes|
      invariant d == ClassMap(classes[..i], fitted)
    {
      assert classes[..i + 1][..i] == classes[..i];
      d := Put(d, classes[i], if i < |vs| then vs[i] else 0.0);
    }
    assert classes[..|classes|] == classes;
  }

  /** When the real engine shapes a vector as long as the class list, its dict is the one the
      mock builds from the same values: the two engines fill `class_probabilities` alike. */
  lemma {:induction false} DictsAgree(vs: seq<real>, classes: seq<string>)
    requires classes != [] && |vs| == |classes|
    ensures Fit(vs, |classes|) == vs
    ensures ClassMap(classes, Fit(vs, |classes|)) == ClassMap(classes, vs)
  {
    var f := Fit(vs, |classes|);
    assert forall i :: 0 <= i < |vs| ==> f[i] == vs[i];
  }

  // ---------------------------------------------------------------------------------------
  // The engine

  class MockInferenceEngine {
    /** `self.loaded_models`, keyed by `CacheKey`. */
    var loadedModels: seq<(string, MockModelInfo)>

    ghost predicate Valid()
      reads this
    {
      Distinct(Keys(loadedModels))
    }

    constructor ()
      ensures Valid() && loadedModels == []
    {
      loadedModels := [];
    }

    /** On a miss the loader's dict is stored under `CacheKey`; a hit returns the stored dict
        and changes nothing. Other entries are never touched. */
    method LoadModel(m: MedicalModel) returns (info: MockModelInfo)
      requires Valid()
      modifies this
      ensures Valid()
      ensures var key := CacheKey(m.id, m.version);
        if key in Keys(old(loadedModels)) then
          loadedModels == old(loadedModels) && info == Get(old(loadedModels), key).value
        else
          info == LoadMockModel(m) && loadedModels == Put(old(loadedModels), key, info)
      ensures Get(loadedModels, CacheKey(m.id, m.version)) == Some(info)
      ensures forall k :: k != CacheKey(m.id, m.version) ==> Get(loadedModels, k) == Get(old(loadedModels), k)
    {
      var key := CacheKey(m.id, m.version);
      if key !in Keys(loadedModels) {
        var loaded := LoadMockModel(m);
        PutDistinct(loadedModels, key, loaded);
        forall k ensures Get(Put(loadedModels, key, loaded), k) ==
                         if k == key then Some(loaded) else Get(loadedModels, k) {
          GetPut(loadedModels, key, loaded, k);
        }
        loadedModels := Put(loadedModels, key, loaded);
      }
      info := Get(loadedModels, key).value;
    }

    /** Always the failure dict: loading succeeds (and stays cached), then preprocessing
        raises, with the unknown-input-type message or the missing-attribute one. */
    method RunInference(m: MedicalModel) returns (r: InferenceOutcome)
      requires Valid()
      modifies this
      ensures Valid()
      ensures r == Failure(PreprocessInput(m.inputTypeName).message, m.name, m.version)
      ensures var key := CacheKey(m.id, m.version);
        loadedModels == if key in Keys(old(loadedModels)) then old(loadedModels)
                        else Put(old(loadedModels), key, LoadMockModel(m))
    {
      var info := LoadModel(m);
      var e := PreprocessInput(m.inputTypeName);
      r := Failure(e.message, m.name, m.version);
    }
  }
}
