// The Go test runner's result types: the model list it tests, the per-run
// metrics object the runner fills in place, and the results record that
// carries it to the report.
module TestTypes {

  /** One model under test: Axon spec "repo/model@version", short name, input kind and category. */
  datatype ModelSpec = ModelSpec(id: string, name: string, modelType: string, category: string)

  /** The value held by a Metrics object at one moment. */
  datatype MetricsState = MetricsState(
    axonDownloadTimeMs: int,
    coreDownloadTimeMs: int,
    coreStartupTimeMs: int,
    modelsInstalled: int,
    totalInferences: int,
    successfulInferences: int,
    failedInferences: int,
    inferenceTimes: map<string, int>,
    inferenceStatus: map<string, string>,
    largeInferenceTimes: map<string, int>,
    largeInferenceStatus: map<string, string>,
    registrationTimes: map<string, int>)

  /** Freshly created metrics: every counter zero and every per-model map empty. */
  const EmptyMetrics := MetricsState(0, 0, 0, 0, 0, 0, 0, map[], map[], map[], map[], map[])

  class Metrics {
    var axonDownloadTimeMs: int
    var coreDownloadTimeMs: int
    var coreStartupTimeMs: int
    var modelsInstalled: int
    var totalInferences: int
    var successfulInferences: int
    var failedInferences: int
    var inferenceTimes: map<string, int>
    var inferenceStatus: map<string, string>
    var largeInferenceTimes: map<string, int>
    var largeInferenceStatus: map<string, string>
    var registrationTimes: map<string, int>

    function State(): MetricsState
      reads this
    {
      MetricsState(axonDownloadTimeMs, coreDownloadTimeMs, coreStartupTimeMs, modelsInstalled,
        totalInferences, successfulInferences, failedInferences, inferenceTimes, inferenceStatus,
        largeInferenceTimes, largeInferenceStatus, registrationTimes)
    }

    /** NewMetrics: all five maps made empty, all counters left at zero. */
    constructor ()
      ensures State() == EmptyMetrics
    {
      axonDownloadTimeMs, coreDownloadTimeMs, coreStartupTimeMs := 0, 0, 0;
      modelsInstalled := 0;
      totalInferences, successfulInferences, failedInferences := 0, 0, 0;
      inferenceTimes := map[];
      inferenceStatus := map[];
      largeInferenceTimes := map[];
      largeInferenceStatus := map[];
      registrationTimes := map[];
    }
  }

  class Results {
    var axonVersion: string
    var coreVersion: string
    var successRate: real
    var metrics: Metrics
    var hardwareSpecs: map<string, string>
    var resourceUsage: map<string, map<string, real>>

    /** NewResults: the two versions as given, fresh empty metrics, empty hardware and resource maps. */
    constructor (axonVersion: string, coreVersion: string)
      ensures this.axonVersion == axonVersion && this.coreVersion == coreVersion
      ensures fresh(metrics) && metrics.State() == EmptyMetrics
      ensures hardwareSpecs == map[] && resourceUsage == map[]
      ensures successRate == 0.0
    {
      this.axonVersion := axonVersion;
      this.coreVersion := coreVersion;
      successRate := 0.0;
      metrics := new Metrics();
      hardwareSpecs := map[];
      resourceUsage := map[];
    }
  }

  const BaseModels := [
    ModelSpec("hf/distilgpt2@latest", "gpt2", "single", "nlp"),
    ModelSpec("hf/bert-base-uncased@latest", "bert", "multi", "nlp")]

  const ExtraModels := [
    ModelSpec("hf/roberta-base@latest", "roberta", "multi", "nlp"),
    ModelSpec("hf/t5-small@latest", "t5", "multi", "nlp"),
    ModelSpec("hf/microsoft/resnet-50@latest", "resnet", "single", "vision"),
    ModelSpec("hf/timm/vgg16@latest", "vgg", "single", "vision"),
    ModelSpec("hf/openai/clip-vit-base-patch32@latest", "clip", "multi", "multimodal")]

  /**
   * The models a run tests: the two essential language models always, and the
   * five others after them only when every model is to be tested.
   */
  function TestModels(testAllModels: bool): (models: seq<ModelSpec>)
    ensures |models| == if testAllModels then 7 else 2
    ensures models[..2] == BaseModels
    ensures testAllModels ==> models[2..] == ExtraModels
  {
    if testAllModels then BaseModels + ExtraModels else BaseModels
  }

  /** No two test models share a name, so per-name maps keep one entry per model. */
  lemma TestModelNamesDistinct(testAllModels: bool)
    ensures forall i, j :: 0 <= i < j < |TestModels(testAllModels)| ==>
              TestModels(testAllModels)[i].name != TestModels(testAllModels)[j].name
  {
    var ms := TestModels(testAllModels);
    forall i, j | 0 <= i < j < |ms|
      ensures ms[i].name != ms[j].name
    {
      assert ms[i].name[0] != ms[j].name[0] || |ms[i].name| != |ms[j].name|;
    }
  }
}
