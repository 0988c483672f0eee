// How scripts/validate-inference.py routes one inference output through the
// golden test cases of a model: `validate`, `_run_single_validation` and
// `_run_tensor_validation`.
module Engine {
  import opened Json
  import opened ValidationResults
  import opened Validators

  /** The validation types the script knows, and a catch-all for everything else. */
  datatype Kind =
    | OutputShapeKind | MultiOutputShapeKind | TopKContainsKind | TopKLogitsKind
    | GenerationContainsKind | EmbeddingNormalizedKind | EmbeddingsCompatibleKind
    | OutputExistsKind | StatusSuccessKind
    | TopKClassMatchKind | MlmPredictionKind | EmbeddingSimilarityKind
    | UnknownKind

  /** The branch of the `validation_type == '<name>'` chain a value selects. */
  function KindOf(validationType: Json): (k: Kind)
    ensures k != UnknownKind ==> validationType.JStr?
  {
    match validationType
    case JStr(name) =>
      if name == "output_shape" then OutputShapeKind
      else if name == "multi_output_shape" then MultiOutputShapeKind
      else if name == "top_k_contains" then TopKContainsKind
      else if name == "top_k_logits_check" then TopKLogitsKind
      else if name == "generation_contains" then GenerationContainsKind
      else if name == "embedding_normalized" then EmbeddingNormalizedKind
      else if name == "embeddings_compatible" then EmbeddingsCompatibleKind
      else if name == "output_exists" then OutputExistsKind
      else if name == "status_success" then StatusSuccessKind
      else if name == "top_k_class_match" then TopKClassMatchKind
      else if name == "mlm_prediction" then MlmPredictionKind
      else if name == "embedding_similarity" then EmbeddingSimilarityKind
      else UnknownKind
    case _ => UnknownKind
  }

  /** The nine types the untyped-output path tries (lines 159-177). */
  predicate RawKind(k: Kind) {
    k in {OutputShapeKind, MultiOutputShapeKind, TopKContainsKind, TopKLogitsKind, GenerationContainsKind,
          EmbeddingNormalizedKind, EmbeddingsCompatibleKind, OutputExistsKind, StatusSuccessKind}
  }

  /** The validator a known kind runs. */
  function Check(k: Kind, name: Json, expected: Obj, data: Obj): Result<ValidationResult>
    requires k != UnknownKind
  {
    match k
    case OutputShapeKind => OutputShape(name, expected, data)
    case MultiOutputShapeKind => MultiOutputShape(name, expected, data)
    case TopKContainsKind => TopKContains(name, expected, data)
    case TopKLogitsKind => TopKLogits(name, expected, data)
    case GenerationContainsKind => GenerationContains(name, expected, data)
    case EmbeddingNormalizedKind => EmbeddingNormalized(name, expected, data)
    case EmbeddingsCompatibleKind => EmbeddingsCompatible(name, expected, data)
    case OutputExistsKind => OutputExists(name, expected, data)
    case StatusSuccessKind => StatusSuccess(name, expected, data)
    case TopKClassMatchKind => TopKClassMatch(name, expected, data)
    case MlmPredictionKind => MlmPrediction(name, expected, data)
    case EmbeddingSimilarityKind => EmbeddingSimilarity(name, expected, data)
  }

  // ------------------------------------------------------------------ routing

  const CoreKeys: seq<string> := ["status", "model_id", "inference_time_us", "output_size"]

  /** `_is_core_response`: the output carries at least one of Core's metadata keys. */
  predicate IsCoreResponse(output: Obj) {
    exists i :: 0 <= i < |CoreKeys| && HasKey(output, CoreKeys[i])
  }

  datatype Route = TensorRoute | CoreMetadataRoute | RawRoute

  function RouteOf(output: Obj): Route {
    if IsCoreResponse(output) && HasTensorOutputs(output) then TensorRoute
    else if IsCoreResponse(output) then CoreMetadataRoute
    else RawRoute
  }

  /** Lines 158-190: untyped output, where every exception becomes a failed result. */
  function RawValidation(name: Json, expected: Obj, output: Obj): ValidationResult {
    var validationType := Get(expected, "validation_type");
    var k := KindOf(validationType);
    if !RawKind(k) then Failed(name, UnknownValidationType(validationType), [])
    else match Check(k, name, expected, output)
      case Ok(r) => r
      case Err(e) => Failed(name, ValidationError(e), [("exception", JStr(ExcName(e)))])
  }

  /** Lines 266-270 and their siblings: the Core metadata written into a finished result's details. */
  function AnnotatedDetails(k: Kind, details: Obj, inferenceTime: Json, modelId: Json): Obj {
    var withTime := Put(details, "inference_time_us", inferenceTime);
    var withModel := if k == OutputShapeKind then Put(withTime, "model_id", modelId) else withTime;
    Put(withModel, "validation_source", JStr(if k == StatusSuccessKind then "core_response" else "tensor_data"))
  }

  function Annotate(k: Kind, r: ValidationResult, inferenceTime: Json, modelId: Json): ValidationResult {
    r.(details := AnnotatedDetails(k, r.details, inferenceTime, modelId))
  }

  /**
   * `_run_tensor_validation`: the validator runs on the `outputs` mapping
   * (status_success on the whole response) and exceptions become a failed
   * result naming the exception.
   */
  function TensorValidation(name: Json, expected: Obj, tensorData: Obj, full: Obj): ValidationResult {
    var validationType := Get(expected, "validation_type");
    var inferenceTime := GetOr(full, "inference_time_us", JInt(0));
    var modelId := GetOr(full, "model_id", JStr("unknown"));
    var k := KindOf(validationType);
    if k == UnknownKind then
      Failed(name, UnknownValidationType(validationType), [("inference_time_us", inferenceTime)])
    else match Check(k, name, expected, if k == StatusSuccessKind then full else tensorData)
      case Ok(r) => Annotate(k, r, inferenceTime, modelId)
      case Err(e) =>
        Failed(name, TensorValidationError(e),
          [("exception", JStr(ExcName(e))), ("inference_time_us", inferenceTime), ("available_keys", KeysJson(tensorData))])
  }

  /**
   * Annotation records the inference time and the data source, records
   * model_id only for output_shape, and leaves every other detail as the
   * validator set it.
   */
  lemma AnnotatedDetailsRecords(k: Kind, details: Obj, inferenceTime: Json, modelId: Json)
    ensures var t := AnnotatedDetails(k, details, inferenceTime, modelId);
      Find(t, "inference_time_us") == Some(inferenceTime)
      && Find(t, "validation_source") == Some(JStr(if k == StatusSuccessKind then "core_response" else "tensor_data"))
      && Find(t, "model_id") == (if k == OutputShapeKind then Some(modelId) else Find(details, "model_id"))
      && forall key :: key != "inference_time_us" && key != "validation_source" && key != "model_id" ==>
           Find(t, key) == Find(details, key)
  {
    var time, model, source := "inference_time_us", "model_id", "validation_source";
    assert time[0] != source[0] && model[0] != source[0] && time[0] != model[0];
    var withTime := Put(details, time, inferenceTime);
    var withModel := if k == OutputShapeKind then Put(withTime, model, modelId) else withTime;
    var t := Put(withModel, source, JStr(if k == StatusSuccessKind then "core_response" else "tensor_data"));
    assert Find(t, time) == Find(withModel, time) == Some(inferenceTime);
    assert Find(t, model) == Find(withModel, model);
    forall key | key != time && key != source && key != model
      ensures Find(t, key) == Find(details, key)
    {
      assert Find(t, key) == Find(withModel, key);
      assert Find(withModel, key) == Find(withTime, key);
    }
  }

  /** A known type's result on the tensor path is the annotated result of its validator. */
  lemma TensorValidationAnnotates(name: Json, expected: Obj, tensorData: Obj, full: Obj, r: ValidationResult)
    requires KindOf(Get(expected, "validation_type")) != UnknownKind
    requires var k := KindOf(Get(expected, "validation_type"));
             Check(k, name, expected, if k == StatusSuccessKind then full else tensorData) == Ok(r)
    ensures TensorValidation(name, expected, tensorData, full) ==
      Annotate(KindOf(Get(expected, "validation_type")), r,
               GetOr(full, "inference_time_us", JInt(0)), GetOr(full, "model_id", JStr("unknown")))
  {
  }

  /**
   * `_run_single_validation`. Reading the test's name and expected mapping,
   * and the metadata-only check, happen outside the try blocks, so their
   * exceptions escape.
   */
  function SingleValidation(test: Json, output: Obj): Result<ValidationResult> {
    if !test.JObj? then Err(AttributeError)
    else
      var name := GetOr(test.fields, "name", JStr("unnamed_test"));
      var expectedValue := GetOr(test.fields, "expected", JObj([]));
      if !expectedValue.JObj? then Err(AttributeError)
      else
        var expected := expectedValue.fields;
        match RouteOf(output)
        case TensorRoute => Ok(TensorValidation(name, expected, TensorData(output), output))
        case CoreMetadataRoute => CoreResponse(name, expected, output)
        case RawRoute => Ok(RawValidation(name, expected, output))
  }

  /**
   * Routing: tensor validation needs a Core metadata key as well as an
   * `outputs` mapping; on the untyped path the three tensor-only types are
   * unknown and no exception escapes; the metadata path ignores the
   * validation type.
   */
  lemma SingleValidationRouting(test: Json, output: Obj)
    requires test.JObj? && GetOr(test.fields, "expected", JObj([])).JObj?
    ensures var expected := GetOr(test.fields, "expected", JObj([])).fields;
      var name := GetOr(test.fields, "name", JStr("unnamed_test"));
      var k := KindOf(Get(expected, "validation_type"));
      (RouteOf(output) == RawRoute ==> SingleValidation(test, output).Ok?)
      && (RouteOf(output) == RawRoute && k in {TopKClassMatchKind, MlmPredictionKind, EmbeddingSimilarityKind} ==>
            SingleValidation(test, output) == Ok(Failed(name, UnknownValidationType(Get(expected, "validation_type")), [])))
      && (RouteOf(output) == RawRoute && RawKind(k) && Check(k, name, expected, output).Err? ==>
            !SingleValidation(test, output).value.passed)
      && (RouteOf(output) == CoreMetadataRoute ==> SingleValidation(test, output) == CoreResponse(name, expected, output))
      && (RouteOf(output) == TensorRoute ==> SingleValidation(test, output).Ok?)
  {
  }

  /** An `outputs` mapping without any metadata key is not routed to tensor validation. */
  lemma OutputsAloneAreRaw(output: Obj)
    requires HasTensorOutputs(output)
    requires forall i :: 0 <= i < |CoreKeys| ==> !HasKey(output, CoreKeys[i])
    ensures RouteOf(output) == RawRoute
  {
  }

  // ------------------------------------------------------------------ validate

  /** `if test_name and test.get('name') != test_name: continue`, as run or skip. */
  function Selected(test: Json, testName: Option<string>): Result<bool> {
    if testName.None? || testName.value == "" then Ok(true)
    else if !test.JObj? then Err(AttributeError)
    else Ok(Get(test.fields, "name") == JStr(testName.value))
  }

  /** The results list after the loop has seen `tests`. */
  function RunTests(tests: seq<Json>, output: Obj, testName: Option<string>): Result<seq<ValidationResult>> {
    if tests == [] then Ok([])
    else
      match RunTests(tests[..|tests| - 1], output, testName)
      case Err(e) => Err(e)
      case Ok(results) => RunStep(results, tests[|tests| - 1], output, testName)
  }

  /** One iteration of the loop of `validate`. */
  function RunStep(results: seq<ValidationResult>, test: Json, output: Obj, testName: Option<string>): Result<seq<ValidationResult>> {
    match Selected(test, testName)
    case Err(e) => Err(e)
    case Ok(false) => Ok(results)
    case Ok(true) =>
      match SingleValidation(test, output)
      case Err(e) => Err(e)
      case Ok(r) => Ok(results + [r])
  }

  /** `validate`: the golden data is the parsed YAML document. */
  function ValidateSpec(golden: Obj, modelName: string, output: Obj, testName: Option<string>): Result<seq<ValidationResult>> {
    var models := GetOr(golden, "models", JObj([]));
    if !models.JObj? then Err(AttributeError)
    else
      var modelData := Get(models.fields, modelName);
      if !Truthy(modelData) then Ok([Failed(JStr("model_lookup"), ModelNotFound(modelName), [])])
      else if !modelData.JObj? then Err(AttributeError)
      else
        var testCases := GetOr(modelData.fields, "test_cases", JList([]));
        if !Truthy(testCases) then Ok([Failed(JStr("test_cases_lookup"), NoTestCases(modelName), [])])
        else
          match Iterate(testCases)
          case Err(e) => Err(e)
          case Ok(tests) => RunTests(tests, output, testName)
  }

  lemma {:induction false} RunTestsErrorStays(tests: seq<Json>, output: Obj, testName: Option<string>, i: nat)
    requires i <= |tests| && RunTests(tests[..i], output, testName).Err?
    ensures RunTests(tests, output, testName) == RunTests(tests[..i], output, testName)
    decreases |tests| - i
  {
    if i < |tests| {
      assert tests[..i + 1][..i] == tests[..i];
      RunTestsErrorStays(tests, output, testName, i + 1);
    } else {
      assert tests[..i] == tests;
    }
  }

  /** The loop of `validate`, run over the iterated test cases. */
  method RunAll(tests: seq<Json>, output: Obj, testName: Option<string>) returns (outcome: Result<seq<ValidationResult>>)
    ensures outcome == RunTests(tests, output, testName)
  {
    var results: seq<ValidationResult> := [];
    var i := 0;
    while i < |tests|
      invariant 0 <= i <= |tests|
      invariant RunTests(tests[..i], output, testName) == Ok(results)
    {
      var test := tests[i];
      assert tests[..i + 1][..i] == tests[..i];
      assert RunTests(tests[..i + 1], output, testName) == RunStep(results, test, output, testName);
      var selected := Selected(test, testName);
      if selected.Err? {
        RunTestsErrorStays(tests, output, testName, i + 1);
        return Err(selected.exc);
      }
      if selected.value {
        var result := SingleValidation(test, output);
        if result.Err? {
          RunTestsErrorStays(tests, output, testName, i + 1);
          return Err(result.exc);
        }
        results := results + [result.value];
      }
      i := i + 1;
    }
    assert tests[..i] == tests;
    return Ok(results);
  }

  /** `validate` with the lookups before the loop. */
  method Validate(golden: Obj, modelName: string, output: Obj, testName: Option<string>) returns (outcome: Result<seq<ValidationResult>>)
    ensures outcome == ValidateSpec(golden, modelName, output, testName)
  {
    var models := GetOr(golden, "models", JObj([]));
    if !models.JObj? {
      return Err(AttributeError);
    }
    var modelData := Get(models.fields, modelName);
    if !Truthy(modelData) {
      return Ok([Failed(JStr("model_lookup"), ModelNotFound(modelName), [])]);
    }
    if !modelData.JObj? {
      return Err(AttributeError);
    }
    var testCases := GetOr(modelData.fields, "test_cases", JList([]));
    if !Truthy(testCases) {
      return Ok([Failed(JStr("test_cases_lookup"), NoTestCases(modelName), [])]);
    }
    var tests := Iterate(testCases);
    if tests.Err? {
      return Err(tests.exc);
    }
    outcome := RunAll(tests.value, output, testName);
  }

  /** Reference definition: the test cases the filter keeps, in order (all of them when it is off). */
  function Chosen(tests: seq<Json>, testName: Option<string>): seq<Json> {
    if tests == [] then []
    else
      var front := Chosen(tests[..|tests| - 1], testName);
      if Selected(tests[|tests| - 1], testName) == Ok(true) then front + [tests[|tests| - 1]] else front
  }

  /**
   * When the loop does not raise, it yields exactly one result per chosen
   * test case, in order, each the single validation of that case; with no
   * filter every test case is chosen.
   */
  lemma {:induction false} RunTestsMatchesChosen(tests: seq<Json>, output: Obj, testName: Option<string>)
    requires RunTests(tests, output, testName).Ok?
    ensures |RunTests(tests, output, testName).value| == |Chosen(tests, testName)|
    ensures forall i :: 0 <= i < |Chosen(tests, testName)| ==>
      SingleValidation(Chosen(tests, testName)[i], output) == Ok(RunTests(tests, output, testName).value[i])
    ensures testName.None? || testName == Some("") ==> Chosen(tests, testName) == tests
  {
    ChosenAllWithoutFilter(tests, testName);
    if tests != [] {
      var front := tests[..|tests| - 1];
      var last := tests[|tests| - 1];
      var before := RunTests(front, output, testName);
      assert before.Ok?;
      RunTestsMatchesChosen(front, output, testName);
      RunStepShape(before.value, last, output, testName);
      var c := Chosen(front, testName);
      var rs := before.value;
      var now := RunTests(tests, output, testName).value;
      if Selected(last, testName) == Ok(true) {
        var v := SingleValidation(last, output).value;
        assert Chosen(tests, testName) == c + [last];
        assert now == rs + [v];
        forall i | 0 <= i < |c| + 1
          ensures SingleValidation((c + [last])[i], output) == Ok((rs + [v])[i])
        {
          if i < |c| {
            assert (c + [last])[i] == c[i] && (rs + [v])[i] == rs[i];
          }
        }
      } else {
        assert Chosen(tests, testName) == c && now == rs;
      }
    }
  }

  /** Without a filter every test case is chosen. */
  lemma {:induction false} ChosenAllWithoutFilter(tests: seq<Json>, testName: Option<string>)
    ensures testName.None? || testName == Some("") ==> Chosen(tests, testName) == tests
  {
    if tests != [] && (testName.None? || testName == Some("")) {
      ChosenAllWithoutFilter(tests[..|tests| - 1], testName);
      assert tests[..|tests| - 1] + [tests[|tests| - 1]] == tests;
    }
  }

  lemma RunStepShape(results: seq<ValidationResult>, test: Json, output: Obj, testName: Option<string>)
    requires RunStep(results, test, output, testName).Ok?
    ensures Selected(test, testName) == Ok(true) ==>
      SingleValidation(test, output).Ok? && RunStep(results, test, output, testName).value == results + [SingleValidation(test, output).value]
    ensures Selected(test, testName) != Ok(true) ==> RunStep(results, test, output, testName).value == results
  {
  }

  /**
   * The lookup failures: an unknown (or falsy) model yields the single
   * `model_lookup` failure and a model without test cases the single
   * `test_cases_lookup` failure, whatever the output.
   */
  lemma ValidateLookupFailures(golden: Obj, modelName: string, output: Obj, testName: Option<string>)
    requires GetOr(golden, "models", JObj([])).JObj?
    ensures var models := GetOr(golden, "models", JObj([])).fields;
      (!HasKey(models, modelName) ==>
         ValidateSpec(golden, modelName, output, testName) == Ok([Failed(JStr("model_lookup"), ModelNotFound(modelName), [])]))
      && (forall m: Obj :: Find(models, modelName) == Some(JObj(m)) && m != [] && !Truthy(GetOr(m, "test_cases", JList([]))) ==>
         ValidateSpec(golden, modelName, output, testName) == Ok([Failed(JStr("test_cases_lookup"), NoTestCases(modelName), [])]))
  {
  }
}
