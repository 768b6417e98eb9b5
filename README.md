# Comparative analysis and inference shaping of the medical-prediction backend, in Dafny

This project models the algorithmic core of a demo medical-imaging prediction backend.
One uploaded input fans out to several models. The comparative analyser
(`ComparativeAnalyzer`, backend/predictions/analysis.py) then reduces their per-model
predictions to one report:

- a majority vote;
- an accuracy×confidence weighted average of the class probabilities;
- a pairwise consensus score;
- an agreement matrix keyed by model name;
- the list of disagreeing pairs;
- confidence statistics with a 95% interval;
- a binomial significance check;
- a ranking of the models.

Around that core sit three smaller pieces, also modelled:

- The inference engine (`MLInferenceEngine`, backend/predictions/ml_engine.py): its model
  cache, its input-type dispatch, its tabular feature selection, how it shapes a raw output
  vector into a prediction dict, and the success/failure dict of `run_inference`.
- The stand-in engine used without ML frameworks (`MockMLInferenceEngine`,
  backend/predictions/mock_ml_engine.py), with its `MockNumpy` helpers.
- The upload validators of backend/predictions/serializers.py.

Representation:

- Python dicts are insertion-ordered association lists (`seq<(K, V)>`), because the
  tie-breaks depend on insertion order. `Base.Put` is `d[k] = v` and `Base.Get` is `d.get(k)`.
- Raised exceptions are values: `Result<T>` holds either a value or an `Exception` with its
  class and message.
- Confidences, probabilities and weights are mathematical `real`s.
- Nullable columns (`accuracy`, `processing_time`) are `Option`s.
- A prediction's result row (`pred.detailed_result`, a reverse one-to-one relation) is an
  `Option` on the prediction. Reading the relation when the row is missing raises
  `RelatedObjectDoesNotExist`; it never yields a false value. The extraction loop therefore
  keeps every prediction or raises, and the model says so (`Records.Extracted`).
- `sqrt` and `exp` are function parameters. `IsSqrt` requires a non-negative square root with
  `sqrt(0) = 0`. `IsExp` requires `exp(0) = 1` and values in [0, 1] for non-positive
  arguments.

The modules follow the source:

- `Records`, `Majority`, `Weighted`, `Consensus`, `AgreementMatrix`, `ConfidenceIntervals`,
  `StatisticalSignificance`, `Performance` and `ComparativeAnalyzer` model analysis.py, one
  analyser stage per module.
- `MockNumpy` models the numeric helpers that analysis.py and mock_ml_engine.py both define
  (mock_ml_engine.py:28-64 has the same `argmax`, `mean`, `std` and `sign` as
  analysis.py:11-41).
- `Engine` holds what both engines share; `MlEngine` models ml_engine.py and `MockEngine`
  models mock_ml_engine.py.
- `Uploads` models serializers.py.

The loops of the source are methods with loop invariants, proved against reference
functions. These are the extraction loop, the weighted-average accumulation, the consensus pair
count, the matrix fill, the disagreement list, the performance list, the feature loop and the
class-probability loops. The two model caches are classes whose `LoadModel` methods update a
`loadedModels` field.

Where the code and the design description of the system disagree, the model follows the code:

- Majority-vote ties go to the class that occurs first. `Counter.most_common` keeps the first
  of equal counts.
- A record whose model has no accuracy makes the weighted average raise `TypeError`.
  `pred.get('accuracy', 0.5)` never uses its default, because the key is always present,
  possibly with `None`.
- A single record makes `_analyze_disagreements` divide by zero. The code has no
  special case for it.
- Records whose probability maps are all empty make `max` raise `ValueError`.
- As written, every analysis of at least one prediction raises: the significance stage
  reads `np.pi`, which the mock `np` lacks (see "## Findings").
  `ComparativeAnalyzer.AnalyzePredictionsAsWritten` states which exception comes out.
  `ComparativeAnalyzer.AnalyzePredictions` is the analyser with that stage corrected. It can
  still fail on the three cases above, and its contract says exactly when.

## Model

| member | source | states |
|---|---|---|
| `MockNumpy.Mean` | backend/predictions/analysis.py:11-15 | fails with `ZeroDivisionError` exactly on an empty list; otherwise mean × length = sum |
| `MockNumpy.Std` | backend/predictions/analysis.py:17-23 | population standard deviation: non-negative, and std² × n equals the sum of squared deviations from the mean (divides by n); empty list fails |
| `MockNumpy.Argmax` | backend/predictions/analysis.py:29-33 | `data.index(max(data))`: the first index of a maximal element; an empty list raises `ValueError` |
| `MockNumpy.Sign` | backend/predictions/analysis.py:39-41 | ±1, and 1 exactly when the value is ≥ 0 (so `sign(0) = 1`) |
| `MockNumpy.ConstantMeanStd` | backend/predictions/analysis.py:11-23 | a list of equal values has that value as mean and standard deviation 0 |
| `MockNumpy.MeanBetween` | backend/predictions/analysis.py:11-15 | the mean lies between any lower and upper bound of the values |
| `Base.FirstMaxIndexUnique` | backend/predictions/analysis.py:32 | "largest value, earliest index" determines the index Python's `max`/`index` pick, uniquely |
| `Records.Extracted` | backend/predictions/analysis.py:56-68 | the extraction succeeds iff every prediction has its result row, and then gives one record per prediction in input order; otherwise it raises `RelatedObjectDoesNotExist` |
| `Records.ExtractedEmpty` | backend/predictions/analysis.py:56-71 | a successful extraction is empty only for an empty input, so the `if not prediction_data` test never fires past the first emptiness check |
| `Records.Tally` | backend/predictions/analysis.py:90 | `Counter` as a dict: keys are the classes in first-occurrence order, values their occurrence counts |
| `Records.TallyTotal` | backend/predictions/analysis.py:99-100 | the tally's counts add up to the number of records |
| `Records.MostCommon` | backend/predictions/analysis.py:92 | `most_common(1)[0]`: a class that occurs, with its count, no class occurs more often, equal counts go to the earliest-occurring class; an empty Counter raises `IndexError` |
| `Majority.CalculateMajorityVote` | backend/predictions/analysis.py:87-101 | the most common class with its count, `total_models = n`, `all_votes` the tally summing to n, `vote_percentage` = 100·count/n; empty input raises |
| `Majority.Percentage` | backend/predictions/analysis.py:98 | `p · total = 100 · count` |
| `Majority.VotePercentageRange` | backend/predictions/analysis.py:95-100 | the vote share lies in (0, 100] and is 100 exactly when every record predicts the winning class |
| `Weighted.CalculateWeightedAverage` | backend/predictions/analysis.py:103-138 | fails with `TypeError` iff some accuracy is missing, else with `ValueError` iff no class appears; otherwise the classes in first-appearance order, each valued Σw·p / Σw (raw Σw·p when Σw ≤ 0), total weight Σ accuracy·confidence, predicted class and confidence the first maximal entry |
| `Weighted.AddRecord` | backend/predictions/analysis.py:120-123 | the inner loop adds one record's `p·w` to each of its classes, creating a new class at zero at the end of the key order |
| `Weighted.Normalize` | backend/predictions/analysis.py:126-128 | dividing every accumulated sum by the positive total weight, keys unchanged |
| `Weighted.NormalizedSumToOne` | backend/predictions/analysis.py:125-128 | with positive total weight and every record's probabilities summing to 1, the reported probabilities sum to 1 |
| `Weighted.ZeroWeightGivesZeros` | backend/predictions/analysis.py:111-128 | with non-negative accuracies and confidences and total weight 0, every reported probability is 0 |
| `Weighted.TotalWeightNonNegative` | backend/predictions/analysis.py:113-118 | non-negative accuracies and confidences give a non-negative total weight |
| `Consensus.CalculateConsensusScore` | backend/predictions/analysis.py:140-155 | 1.0 for at most one record; otherwise agreeing pairs i<j over all pairs |
| `Consensus.Pairs` | backend/predictions/analysis.py:149-153 | the pair count is n(n−1)/2, positive iff n ≥ 2 |
| `Consensus.ConsensusRange` | backend/predictions/analysis.py:140-155 | the consensus score lies in [0, 1] and equals 1 iff all predicted classes are equal |
| `Consensus.Entry` | backend/predictions/analysis.py:187-195 | a disagreement entry's `confidence_diff` is the absolute confidence difference, ≥ 0 |
| `Consensus.DisagreementsDiffer` | backend/predictions/analysis.py:184-186 | every listed pair has differing predictions |
| `Consensus.AnalyzeDisagreements` | backend/predictions/analysis.py:177-202 | raises `ZeroDivisionError` iff n ≤ 1; otherwise all differing pairs in (i, j) loop order, their count, rate = count / (n(n−1)/2), class distribution = the majority-vote tally |
| `Consensus.DisagreementRate` | backend/predictions/analysis.py:199 | rate × pairs = count; fewer than two records divide by zero |
| `Consensus.DisagreementRateComplementsConsensus` | backend/predictions/analysis.py:183-199 | disagreements + agreements = C(n,2), so the disagreement rate is 1 − consensus for n ≥ 2 |
| `AgreementMatrix.CalculateAgreementMatrix` | backend/predictions/analysis.py:157-175 | rows and columns are the distinct model names in first-occurrence order; every cell is `Entry` of its two names (last record of each name, later writes overwriting earlier ones) |
| `AgreementMatrix.FillRow` | backend/predictions/analysis.py:165-173 | the inner loop leaves, under each name, the value for the last record with that name |
| `AgreementMatrix.Entry` | backend/predictions/analysis.py:167-173 | a cell is 0.0 or 1.0, 1.0 iff the two records' classes are equal, and 1.0 on the diagonal |
| `AgreementMatrix.MatrixSymmetric` | backend/predictions/analysis.py:157-175 | the matrix is symmetric |
| `AgreementMatrix.DistinctNamesEntry` | backend/predictions/analysis.py:164-173 | with distinct names, cell [name i][name j] compares exactly records i and j |
| `ConfidenceIntervals.Minimum` | backend/predictions/analysis.py:224 | `min`: an element no larger than any |
| `ConfidenceIntervals.Maximum` | backend/predictions/analysis.py:225 | `max`: an element no smaller than any |
| `ConfidenceIntervals.Margin` | backend/predictions/analysis.py:215 | `ci = 1.96·std/sqrt(n)` is ≥ 0, with `ci·sqrt(n) = 1.96·std` |
| `ConfidenceIntervals.ClipLow` | backend/predictions/analysis.py:221 | `max(0, x)` is ≥ 0 and ≥ x, and is x or 0 |
| `ConfidenceIntervals.ClipHigh` | backend/predictions/analysis.py:222 | `min(1, x)` is ≤ 1 and ≤ x, and is x or 1 |
| `ConfidenceIntervals.CalculateConfidenceIntervals` | backend/predictions/analysis.py:204-226 | no confidences give `{}`; otherwise mean, population std, `lower = max(0, mean−ci) ≥ 0`, `upper = min(1, mean+ci) ≤ 1`, and min/max bounding every confidence |
| `ConfidenceIntervals.IntervalBracketsMean` | backend/predictions/analysis.py:211-225 | min ≤ mean ≤ max; with confidences in [0, 1], lower ≤ mean ≤ upper |
| `ConfidenceIntervals.IdenticalConfidences` | backend/predictions/analysis.py:204-226 | identical confidences c in [0, 1] give std 0 and the interval [c, c] |
| `StatisticalSignificance.Variance` | backend/predictions/analysis.py:285 | `n·p·(1−p)` is ≥ 0 and, for n > 0, zero only at p ∈ {0, 1} |
| `StatisticalSignificance.BinomialCdfAsWritten` | backend/predictions/analysis.py:274-291 | the guards: 0.0 for k < 0, 1.0 for k ≥ n, the zero-std step; past them the `np.pi` lookup raises `AttributeError` |
| `StatisticalSignificance.BinomialCdf` | backend/predictions/analysis.py:274-291 | the same guards; the approximation is a probability, ≥ 0.5 when k ≥ n·p and ≤ 0.5 otherwise |
| `StatisticalSignificance.CalculateStatisticalSignificanceAsWritten` | backend/predictions/analysis.py:228-248 | always raises: `IndexError` with no record, and `AttributeError` otherwise, because k = count−1 ∈ [0, n) and p = 0.5 pass every guard |
| `StatisticalSignificance.CalculateStatisticalSignificance` | backend/predictions/analysis.py:228-248 | count c ∈ [1, n], `sample_size = n`, `effect_size = c/n − 0.5`, p-value `2(1 − cdf(c−1, n, 0.5))` in [0, 2], `is_significant` iff p < 0.05 |
| `StatisticalSignificance.EffectSizeRange` | backend/predictions/analysis.py:246 | the effect size lies in (−0.5, 0.5] and is 0.5 iff the vote is unanimous |
| `StatisticalSignificance.MajorityPValue` | backend/predictions/analysis.py:241 | when 2(c−1) ≥ n, the p-value is at most 1 |
| `Performance.Entries` | backend/predictions/analysis.py:252-262 | one performance entry per record, in input order |
| `Performance.SortPermutes` | backend/predictions/analysis.py:265 | the sort result is a permutation of its input |
| `Performance.SortedByConfidence` | backend/predictions/analysis.py:265 | the sort result is non-increasing in confidence |
| `Performance.SortStable` | backend/predictions/analysis.py:265 | the sort is stable: entries of equal confidence keep their input order |
| `Performance.FastestIndex` | backend/predictions/analysis.py:269 | the first entry with the least time, where a missing or zero time counts as +∞ |
| `Performance.FirstMaxBy` | backend/predictions/analysis.py:270-271 | the first entry with the largest confidence, or the largest accuracy (missing counts as 0) |
| `Performance.AnalyzeModelPerformance` | backend/predictions/analysis.py:250-272 | raises iff there is no record; otherwise `models_by_confidence` is the sorted entries, and fastest/most-confident/most-accurate are picked from it |
| `Performance.RankingFacts` | backend/predictions/analysis.py:264-270 | the ranking is a sorted, stable permutation of the records, and the most confident model is its first entry |
| `ComparativeAnalyzer.ExtractPredictionData` | backend/predictions/analysis.py:55-68 | the extraction loop yields `Extracted`: one record per prediction in input order, or `RelatedObjectDoesNotExist` at a prediction without a result row |
| `ComparativeAnalyzer.AnalyzePredictions` | backend/predictions/analysis.py:50-85 | the corrected analyser: `{}` iff there is no prediction; a missing result row re-raises; otherwise raises exactly on a missing accuracy (`TypeError`), no class at all (`ValueError`) or a single record (`ZeroDivisionError`); a full report holds every stage's result: the vote, the weighted map with its first-max prediction, the consensus score, every matrix cell as `Entry`, the disagreement list, count and rate, the intervals, the significance, and the ranking with its three picks |
| `ComparativeAnalyzer.AnalyzePredictionsAsWritten` | backend/predictions/analysis.py:50-85 | the analyser as written: `{}` iff there is no prediction, otherwise always raises: a missing result row, then `TypeError`, `ValueError` or `ZeroDivisionError` as above, and `AttributeError` from the significance stage in every other case |
| `Engine.CacheKey` | backend/predictions/ml_engine.py:183 | `f"{id}_{version}"`, of length |digits| + 1 + |version| |
| `Engine.CacheKeyInjective` | backend/predictions/ml_engine.py:183 | different (id, version) pairs never share a cache key |
| `Engine.RouteFor` | backend/predictions/ml_engine.py:200-209 | the lowercased type selects MRI (`mri`), general image (`image`/`xray`/`ct`/`ultrasound`) or tabular (`tabular`/`structured`/`data`); anything else raises `ValueError("Unsupported input type: …")` |
| `Engine.RouteIgnoresCase` | backend/predictions/ml_engine.py:202-206 | types equal up to ASCII case are dispatched alike |
| `Engine.HyphenatedXrayRejected` | backend/predictions/ml_engine.py:204-209 | `X-ray` is rejected and `MRI` is accepted |
| `Engine.OutputClasses` | backend/predictions/ml_engine.py:256 | the model's classes, or `['class_0', 'class_1']` when empty |
| `Engine.ClassMap` | backend/predictions/ml_engine.py:280-282 | the dict's keys are the distinct classes; each maps to the value at its last position |
| `Engine.ClassMapOfDistinct` | backend/predictions/ml_engine.py:280-282 | with distinct classes the dict maps exactly class i to value i |
| `Engine.Fit` | backend/predictions/ml_engine.py:273-277 | truncation or zero-padding to n: length n, value i kept below the input length, 0.0 past it |
| `MlEngine.FeatureColumns` | backend/predictions/ml_engine.py:142-144 | the configured columns, or the record's keys when none are configured |
| `MlEngine.Feature` | backend/predictions/ml_engine.py:149-154 | the record's value, else the configured default, else 0.0 |
| `MlEngine.SelectFeatures` | backend/predictions/ml_engine.py:142-154 | one feature per column, in column order, each `Feature` of its column |
| `MlEngine.UnconfiguredFeatures` | backend/predictions/ml_engine.py:142-150 | with no configured columns, the features are the record's values in key order |
| `MlEngine.Shaped` | backend/predictions/ml_engine.py:252-298 | an empty batch raises; a single value against ≥ 2 classes always raises (`IndexError` for ≥ 3 classes, `AttributeError` otherwise); otherwise the raw vector is the first row truncated or zero-padded, the dict maps classes to it, and the predicted class and confidence are at its first maximum |
| `MlEngine.AdjustLength` | backend/predictions/ml_engine.py:267-277 | one value becomes the plain list `[1−p, p]`; any other mismatched length is truncated or zero-padded |
| `MlEngine.FillClassProbabilities` | backend/predictions/ml_engine.py:280-282 | the dict loop raises `IndexError` iff the vector is shorter than the class list; otherwise it builds `ClassMap` |
| `MlEngine.ProcessPredictions` | backend/predictions/ml_engine.py:252-298 | `process_predictions` returns exactly `Shaped` of its input and the model's output classes |
| `MlEngine.InferenceEngine.constructor` | backend/predictions/ml_engine.py:178-179 | the engine starts with an empty cache |
| `MlEngine.InferenceEngine.LoadModel` | backend/predictions/ml_engine.py:181-198 | a cached key is returned without loading; on a miss a successful load is stored and returned; a loader failure re-raises with the cache unchanged; other keys never change |
| `MlEngine.InferenceEngine.RunInference` | backend/predictions/ml_engine.py:211-250 | the success dict with the shaped predictions, or the failure dict with the first exception's message (load, dispatch, preprocessing, framework, prediction, shaping), the model loaded on the way staying cached |
| `MockEngine.MockModelName` | backend/predictions/mock_ml_engine.py:96 | `mock_model_` followed by the decimal digits of the id, which read back as the id |
| `MockEngine.LoadMockModel` | backend/predictions/mock_ml_engine.py:92-99 | the loader's dict: mock name, the model row, its preprocessing config |
| `MockEngine.MockModelNameInjective` | backend/predictions/mock_ml_engine.py:96 | different ids give different mock model names |
| `MockEngine.PreprocessInput` | backend/predictions/mock_ml_engine.py:154-163 | always raises: the real engine's `ValueError` for an unknown type, and `AttributeError` on the `np.random.random` lookup otherwise |
| `MockEngine.ProcessPredictions` | backend/predictions/mock_ml_engine.py:202-230 | a plain list always raises (`ValueError` when empty, `IndexError` past the classes, else `AttributeError` at `.tolist()`); an array-like raises iff empty, otherwise predicts the first class with the first value; the dict is one entry per class, value or 0.0 |
| `MockEngine.DictsAgree` | backend/predictions/mock_ml_engine.py:209-214 | for a vector as long as the class list, the mock's padded dict is the real engine's dict |
| `MockEngine.MockInferenceEngine.LoadModel` | backend/predictions/mock_ml_engine.py:139-152 | insert-once cache under the real engine's key, storing the loader's dict; other keys never change |
| `MockEngine.MockInferenceEngine.RunInference` | backend/predictions/mock_ml_engine.py:165-200 | always the failure dict with the preprocessing error's message, and the model stays cached |
| `Uploads.LastSegment` | backend/predictions/serializers.py:111 | `split('.')[-1]`: a dot-free suffix of the name that is the whole name or follows a dot |
| `Uploads.Extension` | backend/predictions/serializers.py:111 | `'.'` followed by the lowercased last segment |
| `Uploads.LastSegmentOfDotted` | backend/predictions/serializers.py:111 | splitting `stem.ext` with a dot-free `ext` gives back `ext` |
| `Uploads.ExtensionOfDotted` | backend/predictions/serializers.py:111 | the extension of `stem.ext` is `.` + lowercased `ext` |
| `Uploads.NiiGzNeverMatches` | backend/predictions/serializers.py:110-112 | no file name has the extension `.nii.gz` |
| `Uploads.ValidateFile` | backend/predictions/serializers.py:104-115 | accepted iff size ≤ 52,428,800 and the extension is allowed; the size error comes first; an accepted file is returned unchanged |
| `Uploads.SizeLimitInclusive` | backend/predictions/serializers.py:106-107 | a file of exactly 50 MiB passes, one byte more fails |
| `Uploads.UpperCaseExtension` | backend/predictions/serializers.py:111-112 | `SCAN.PNG` is accepted |
| `Uploads.DotlessName` | backend/predictions/serializers.py:111-112 | the dot-less name `jpg` is accepted |
| `Uploads.NiiGzRefused` | backend/predictions/serializers.py:110-113 | `brain.nii.gz` is refused |
| `Uploads.FirstRejected` | backend/predictions/serializers.py:137-143 | the first file failing its size or type check |
| `Uploads.CheckEach` | backend/predictions/serializers.py:137-145 | the per-file loop passes iff no file fails, returns the list unchanged, and otherwise reports the first failing file |
| `Uploads.ValidateFiles` | backend/predictions/serializers.py:129-145 | a total over 100 MiB is rejected before any file; then accepted iff every file passes, and otherwise rejected for the first failing file |
| `Uploads.ValidateBatch` | backend/predictions/serializers.py:122-126 | fewer than 1 or more than 10 files are rejected; otherwise `validate_files` decides |
| `Uploads.BatchAgreesWithSingle` | backend/predictions/serializers.py:129-145 | a batch passes iff its total is within the limit and every file passes `validate_file` |
| `Uploads.TotalLimitIsStricter` | backend/predictions/serializers.py:131-139 | three 40 MiB files each pass alone but not together |

## Left out

- Database access, HTTP handling, logging and the background task that calls the analyser
  are not modelled.
- ExtractPredictionData: takes each prediction's `confidence_score` to be a number. The
  column is nullable (backend/predictions/models.py:64), and a null score would make the
  weighted average raise `TypeError` at backend/predictions/analysis.py:116. The only caller
  analyses completed predictions (backend/predictions/tasks.py:169-173), and a prediction is
  completed only after its score is set (backend/predictions/tasks.py:135-137).
- A record's `classProbabilities` is an association list that may repeat a key, which a
  Python dict cannot. The weighted-average contracts and lemmas hold for such lists as well,
  so they cover more inputs than the source can receive.
- Floating point: every number is a mathematical real. Rounding effects are not modelled,
  for example the mean of three 0.9s not being exactly 0.9.
- `StatisticalSignificance.BinomialCdf`: `exp` and `sqrt` are parameters constrained only as
  `IsExp`/`IsSqrt` say. The p-value is therefore pinned down only up to those functions, and
  so is `is_significant`.
- Real model loading (TensorFlow, PyTorch), image decoding (cv2, PIL) and the framework's
  predict call are foreign libraries. `MlEngine.InferenceEngine.RunInference` receives their
  outcomes as parameters.
- `MlEngine.InferenceEngine.RunInference` does not tie the preprocessing outcome to the
  preprocessor that `RouteFor` selects. The image preprocessors are foreign code, so the
  outcome is a free parameter.
- The tabular `scale` branch (mean/std with epsilon) and the batch dimension added by
  `np.expand_dims` are not modelled. `float(data[col])` on a non-numeric value is not
  modelled either: record values are already reals.
- `Base.Lower` maps only the ASCII letters `A`–`Z`. Python's `str.lower()`, used by the
  engines' dispatch and the extension check, also lowers other Unicode letters.
- `list.sort` is library code. `Performance.SortByConfidence` is a function (a stable
  insertion sort), and its result is characterised by lemmas. The in-place update of
  `performance_data` is not modelled.
- The `MockNumpy` branches for non-list arguments (`mean`/`std` returning their argument or
  0.0) are not modelled. `argmax` returning 0 is modelled only where the mock engine reaches
  it, in `MockEngine.ProcessPredictions`.
- `MockNumpy.random_sample`, `array`, `sum`, `pad`, `expand_dims`, `float32` and `int` are
  not modelled. Nothing modelled reaches them: every mock preprocessor raises before its
  result is used.
- The framework's own per-file checks inside the `files` list field run before
  `validate_files`, and the model leaves them out. The texts of the two list-length errors
  follow the framework's defaults and are not in the repository.
- `load_sample_data.py`, `views.py`, `tasks.py`, the admin, URL, WSGI/ASGI modules and the
  API client script are framework plumbing and are not part of this model.

## Findings

| source | as written | input that shows it | evidently intended | confidence | as-written member | corrected member |
|---|---|---|---|---|---|---|
| backend/predictions/analysis.py:291 | `_binomial_cdf` reads `np.pi`, but `np` is the local `MockNumpy` object, which has no `pi`, so the lookup raises `AttributeError` | any non-empty list of predicted classes: from `_calculate_statistical_significance`, k = count−1 ∈ [0, n) and p = 0.5, so no guard returns first (e.g. two records predicting `A` and `B`: k = 0, n = 2) | `math.pi`, giving the normal approximation `0.5·(1 + sign(z)·sqrt(1 − exp(−2z²/π)))` | high; not executed | `StatisticalSignificance.CalculateStatisticalSignificanceAsWritten` | `StatisticalSignificance.CalculateStatisticalSignificance` |

`ComparativeAnalyzer.AnalyzePredictionsAsWritten` carries the finding to the whole analyser:
every analysis of at least one prediction raises. `ComparativeAnalyzer.AnalyzePredictions`
uses the corrected significance stage, so a well-formed input with at least two records
produces a full report.
