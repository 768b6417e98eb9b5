/** `MLInferenceEngine` and `DataPreprocessor.preprocess_tabular_data` (ml_engine.py): the
    model cache, tabular feature selection, the shaping of raw framework output into a
    prediction dict, and the success / failure dict of `run_inference`. Model loading, image
    preprocessing and the framework call are foreign: their outcomes are parameters. */
module MlEngine {
  import opened Base
  import opened Engine

  // ---------------------------------------------------------------------------------------
  // Tabular feature selection

  /** `config['feature_columns']`, or the record's keys when that list is empty. */
  function FeatureColumns(data: seq<(string, real)>, config: PreprocessingConfig): (cs: seq<string>)
    ensures config.featureColumns != [] ==> cs == config.featureColumns
    ensures config.featureColumns == [] ==> cs == Keys(data)
  {
    if config.featureColumns == [] then Keys(data) else config.featureColumns
  }

  /** The value for one column: the record's own, else the configured default, else 0.0. */
  function Feature(data: seq<(string, real)>, config: PreprocessingConfig, col: string): (v: real)
    ensures Get(data, col).Some? ==> v == Get(data, col).value
    ensures Get(data, col).None? && Get(config.defaultValues, col).Some? ==>
              v == Get(config.defaultValues, col).value
    ensures Get(data, col).None? && Get(config.defaultValues, col).None? ==> v == 0.0
  {
    match Get(data, col)
    case Some(x) => x
    case None => match Get(config.defaultValues, col)
                 case Some(d) => d
                 case None => 0.0
  }

  /** The feature loop: one value per column, in column order. (The optional scaling step and
      the batch dimension are not part of this model.) */
  method SelectFeatures(data: seq<(string, real)>, config: PreprocessingConfig) returns (features: seq<real>)
    ensures |features| == |FeatureColumns(data, config)|
    ensures forall i :: 0 <= i < |features| ==>
              features[i] == Feature(data, config, FeatureColumns(data, config)[i])
  {
    var columns := config.featureColumns;
    if columns == [] {
      columns := Keys(data);
    }
    features := [];
    for i := 0 to |columns|
      invariant |features| == i
      invariant forall j :: 0 <= j < i ==> features[j] == Feature(data, config, columns[j])
    {
      var col := columns[i];
      if col in Keys(data) {
        features := features + [Get(data, col).value];
      } else {
        var d := Get(config.defaultValues, col);
        features := features + [if d.Some? then d.value else 0.0];
      }
    }
  }

  /** With no configured columns, the features are the record's values in key order. */
  lemma UnconfiguredFeatures(data: seq<(string, real)>, config: PreprocessingConfig)
    requires config.featureColumns == [] && Distinct(Keys(data))
    ensures |FeatureColumns(data, config)| == |data|
    ensures forall i :: 0 <= i < |data| ==> Feature(data, config, FeatureColumns(data, config)[i]) == data[i].1
  {
    forall i | 0 <= i < |data|
      ensures Feature(data, config, FeatureColumns(data, config)[i]) == data[i].1
    {
      GetAt(data, i);
    }
  }

  // ---------------------------------------------------------------------------------------
  // Shaping raw predictions

  /** A framework's raw output: one vector, or a batch whose first row is used. */
  datatype Predictions = Vector(values: seq<real>) | Batch(rows: seq<seq<real>>)

  /** The vector `process_predictions` works on, before any length adjustment. */
  function FirstRow(p: Predictions): seq<real>
    requires !(p.Batch? && p.rows == [])
  {
    if p.Vector? then p.values else p.rows[0]
  }

  /** What `process_predictions` returns for `classes`. An empty batch has no first row. A
      single value against several classes becomes the plain list `[1 - p, p]`: with three or
      more classes indexing it runs past its end, and otherwise `.tolist()` does not exist on
      a list, so that branch always raises. Any other length is truncated or zero-padded to
      the number of classes; the dict maps each class to the value at its (last) position,
      and the predicted class is at the first maximal value. */
  function Shaped(predictions: Predictions, classes: seq<string>): (r: Result<ProcessedPrediction>)
    requires classes != []
    ensures predictions.Batch? && predictions.rows == [] ==> r.Err? && r.error.kind == IndexError
    ensures !(predictions.Batch? && predictions.rows == []) ==>
      var probs := FirstRow(predictions);
      && (r.Err? <==> |probs| == 1 && |classes| >= 2)
      && (r.Err? ==> r.error.kind == if |classes| >= 3 then IndexError else AttributeError)
      && (r.Ok? ==>
            var raw := r.value.rawPredictions;
            && |raw| == |classes|
            && (forall i :: 0 <= i < |classes| ==> raw[i] == if i < |probs| then probs[i] else 0.0)
            && Keys(r.value.classProbabilities) == FirstOccurrences(classes)
            && (forall u :: 0 <= u < |r.value.classProbabilities| ==>
                  r.value.classProbabilities[u].1 ==
                  raw[LastIndexOf(classes, r.value.classProbabilities[u].0)])
            && r.value.predictedClass == classes[FirstMaxIndex(raw)]
            && r.value.confidence == raw[FirstMaxIndex(raw)]
            && (forall i :: 0 <= i < |raw| ==> raw[i] <= r.value.confidence))
  {
    if predictions.Batch? && predictions.rows == [] then
      Err(Exception(IndexError, "index 0 is out of bounds for axis 0 with size 0"))
    else
      var probs := FirstRow(predictions);
      if |probs| != |classes| && |probs| == 1 then
        if |classes| >= 3 then Err(Exception(IndexError, "list index out of range"))
        else Err(Exception(AttributeError, "'list' object has no attribute 'tolist'"))
      else
        var raw := Fit(probs, |classes|);
        var k := FirstMaxIndex(raw);
        Ok(ProcessedPrediction(classes[k], raw[k], ClassMap(classes, raw), raw))
  }

  /** The length adjustment: a vector whose length differs from the number of classes `n` is
      replaced by the plain list `[1 - p, p]` when it holds one value (`plainList`), and is
      otherwise truncated or zero-padded to `n`. */
  method AdjustLength(probs: seq<real>, n: nat) returns (adjusted: seq<real>, plainList: bool)
    ensures plainList <==> |probs| != n && |probs| == 1
    ensures plainList ==> adjusted == [1.0 - probs[0], probs[0]]
    ensures !plainList ==> adjusted == Fit(probs, n)
  {
    adjusted, plainList := probs, false;
    if |probs| != n {
      if |probs| == 1 {
        var p := probs[0];
        adjusted, plainList := [1.0 - p, p], true;
      } else if |probs| > n {
        adjusted := probs[..n];
      } else {
        adjusted := probs + seq(n - |probs|, _ => 0.0);
      }
    }
  }

  /** The dict-filling loop `class_probabilities[class_name] = float(probabilities[i])`, which
      raises once `i` runs past the end of `probs`. */
  method FillClassProbabilities(classes: seq<string>, probs: seq<real>)
    returns (r: Result<seq<(string, real)>>)
    ensures r.Err? <==> |probs| < |classes|
    ensures r.Err? ==> r.error == Exception(IndexError, "list index out of range")
    ensures r.Ok? ==> r.value == ClassMap(classes, probs)
  {
    var classProbabilities: seq<(string, real)> := [];
    for i := 0 to |classes|
      invariant i <= |probs|
      invariant classProbabilities == ClassMap(classes[..i], probs)
    {
      if i >= |probs| {
        return Err(Exception(IndexError, "list index out of range"));
      }
      assert classes[..i + 1][..i] == classes[..i];
      classProbabilities := Put(classProbabilities, classes[i], probs[i]);
    }
    assert classes[..|classes|] == classes;
    r := Ok(classProbabilities);
  }

  /** `process_predictions`: the length adjustment, the dict-filling loop, `argmax` and
      `.tolist()`, in that order. */
  method ProcessPredictions(predictions: Predictions, m: MedicalModel) returns (r: Result<ProcessedPrediction>)
    ensures r == Shaped(predictions, OutputClasses(m))
  {
    var classes := OutputClasses(m);
    if predictions.Batch? && predictions.rows == [] {
      return Err(Exception(IndexError, "index 0 is out of bounds for axis 0 with size 0"));
    }
    var probs, plainList := AdjustLength(FirstRow(predictions), |classes|);
    var filled := FillClassProbabilities(classes, probs);
    if filled.Err? {
      return Err(filled.error);
    }
    var k := FirstMaxIndex(probs);
    if plainList {
      return Err(Exception(AttributeError, "'list' object has no attribute 'tolist'"));
    }
    r := Ok(ProcessedPrediction(classes[k], probs[k], filled.value, probs));
  }

  // ---------------------------------------------------------------------------------------
  // The engine

  /** An opaque handle for the object a framework loader returns. */
  datatype LoadedModel = LoadedModel(handle: nat)

  /** A `loaded_models` value. */
  datatype CacheEntry = CacheEntry(model: LoadedModel, medicalModel: MedicalModel, config: PreprocessingConfig)

  /** `framework.lower()` is one the engine can call. */
  predicate SupportedFramework(framework: string) {
    Lower(framework) == "tensorflow" || Lower(framework) == "pytorch"
  }

  class InferenceEngine {
    /** `self.loaded_models`, keyed by `CacheKey`. */
    var loadedModels: seq<(string, CacheEntry)>

    ghost predicate Valid()
      reads this
    {
      Distinct(Keys(loadedModels))
    }

    constructor ()
      ensures Valid() && loadedModels == []
    {
      loadedModels := [];
    }

    /** Looks the model up by `CacheKey`; only on a miss is the loader's outcome used: a
        loaded model is stored with the row and its config, a loader exception is re-raised
        with the cache left as it was. */
    method LoadModel(m: MedicalModel, loader: Result<LoadedModel>) returns (r: Result<CacheEntry>)
      requires Valid()
      modifies this
      ensures Valid()
      ensures var key := CacheKey(m.id, m.version);
        if key in Keys(old(loadedModels)) then
          loadedModels == old(loadedModels) && r == Ok(Get(old(loadedModels), key).value)
        else if loader.Err? then
          loadedModels == old(loadedModels) && r == Err(loader.error)
        else
          && r == Ok(CacheEntry(loader.value, m, m.config))
          && loadedModels == Put(old(loadedModels), key, r.value)
      ensures r.Ok? ==> Get(loadedModels, CacheKey(m.id, m.version)) == Some(r.value)
      ensures forall k :: k != CacheKey(m.id, m.version) ==> Get(loadedModels, k) == Get(old(loadedModels), k)
    {
      var key := CacheKey(m.id, m.version);
      if key !in Keys(loadedModels) {
        if loader.Err? {
          return Err(loader.error);
        }
        PutDistinct(loadedModels, key, CacheEntry(loader.value, m, m.config));
        forall k ensures Get(Put(loadedModels, key, CacheEntry(loader.value, m, m.config)), k) ==
                         if k == key then Some(CacheEntry(loader.value, m, m.config)) else Get(loadedModels, k) {
          GetPut(loadedModels, key, CacheEntry(loader.value, m, m.config), k);
        }
        loadedModels := Put(loadedModels, key, CacheEntry(loader.value, m, m.config));
      }
      r := Ok(Get(loadedModels, key).value);
    }

    /** Loads, preprocesses, predicts and shapes; the first exception is caught and reported
        as the failure dict (with its message), and a model loaded on the way stays cached.
        `preprocessed` is the outcome of the preprocessor the input type selects and
        `predicted` that of the framework call. */
    method RunInference(m: MedicalModel, loader: Result<LoadedModel>, preprocessed: Result<seq<real>>,
                        predicted: Result<Predictions>) returns (r: InferenceOutcome)
      requires Valid()
      modifies this
      ensures Valid()
      ensures var key := CacheKey(m.id, m.version);
        var loaded := key in Keys(old(loadedModels)) || loader.Ok?;
        && loadedModels == (if !loaded || key in Keys(old(loadedModels)) then old(loadedModels)
                            else Put(old(loadedModels), key, CacheEntry(loader.value, m, m.config)))
        && r.modelName == m.name && r.modelVersion == m.version
        && (!loaded ==> r.Failure? && r.error == loader.error.message)
        && (loaded && RouteFor(m.inputTypeName).Err? ==>
              r.Failure? && r.error == "Unsupported input type: " + m.inputTypeName)
        && (loaded && RouteFor(m.inputTypeName).Ok? && preprocessed.Err? ==>
              r.Failure? && r.error == preprocessed.error.message)
        && (loaded && RouteFor(m.inputTypeName).Ok? && preprocessed.Ok? && !SupportedFramework(m.framework) ==>
              r.Failure? && r.error == "Unsupported framework: " + m.framework)
        && (loaded && RouteFor(m.inputTypeName).Ok? && preprocessed.Ok? && SupportedFramework(m.framework) ==>
              if predicted.Err? then r.Failure? && r.error == predicted.error.message
              else
                var shaped := Shaped(predicted.value, OutputClasses(m));
                if shaped.Err? then r.Failure? && r.error == shaped.error.message
                else r == Success(shaped.value, m.name, m.version, m.framework))
    {
      var info := LoadModel(m, loader);
      if info.Err? {
        return Failure(info.error.message, m.name, m.version);
      }
      var route := RouteFor(m.inputTypeName);
      if route.Err? {
        return Failure(route.error.message, m.name, m.version);
      }
      if preprocessed.Err? {
        return Failure(preprocessed.error.message, m.name, m.version);
      }
      if !SupportedFramework(m.framework) {
        return Failure("Unsupported framework: " + m.framework, m.name, m.version);
      }
      if predicted.Err? {
        return Failure(predicted.error.message, m.name, m.version);
      }
      var result := ProcessPredictions(predicted.value, m);
      if result.Err? {
        return Failure(result.error.message, m.name, m.version);
      }
      r := Success(result.value, m.name, m.version, m.framework);
    }
  }
}
