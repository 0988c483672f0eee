// The data side of the Go report's PrepareData: the registration and
// inference metric lists, the chart lists built from them, the two totals
// and the summary card class. Durations, the timestamp, resource usage and
// the JSON encoding of the chart lists are not modelled.
module ReportData {
  import opened Json
  import opened TestTypes
  import opened ReportGenerator

  /** One row of the report's metric tables; `kind` is "registration", "inference-small" or "inference-large". */
  datatype ModelMetric = ModelMetric(name: string, value: int, status: string, statusText: string, kind: string)

  const SuccessText := "✅ Success"
  const FailedText := "❌ Failed"

  /** Any status other than "success" is shown as failed. */
  function StatusText(status: string): string {
    if status != "success" then FailedText else SuccessText
  }

  /** Go's map lookup: a missing status reads as "". */
  function StatusOf(m: map<string, string>, name: string): string {
    if name in m then m[name] else ""
  }

  /** The registration rows: one per language model with a positive registration time, in model order. */
  function RegistrationMetrics(s: MetricsState, models: seq<ModelSpec>): seq<ModelMetric> {
    if models == [] then []
    else
      var r := RegistrationMetrics(s, models[..|models| - 1]);
      var m := models[|models| - 1];
      if m.category == "nlp" && PositiveTime(s.registrationTimes, m.name)
      then r + [ModelMetric(DisplayName(m.name), s.registrationTimes[m.name], "success", SuccessText, "registration")]
      else r
  }

  /** The inference rows of one language model: small, then large, each only for a positive time. */
  function InferenceEntries(s: MetricsState, name: string): seq<ModelMetric> {
    var small := if PositiveTime(s.inferenceTimes, name)
      then [ModelMetric(DisplayName(name), s.inferenceTimes[name], StatusOf(s.inferenceStatus, name),
                        StatusText(StatusOf(s.inferenceStatus, name)), "inference-small")]
      else [];
    var large := if PositiveTime(s.largeInferenceTimes, name)
      then [ModelMetric(DisplayName(name), s.largeInferenceTimes[name], StatusOf(s.largeInferenceStatus, name),
                        StatusText(StatusOf(s.largeInferenceStatus, name)), "inference-large")]
      else [];
    small + large
  }

  function InferenceMetrics(s: MetricsState, models: seq<ModelSpec>): seq<ModelMetric> {
    if models == [] then []
    else
      var r := InferenceMetrics(s, models[..|models| - 1]);
      var m := models[|models| - 1];
      if m.category == "nlp" then r + InferenceEntries(s, m.name) else r
  }

  /** buildRegistrationMetrics. */
  method BuildRegistrationMetrics(s: MetricsState, models: seq<ModelSpec>) returns (metrics: seq<ModelMetric>)
    ensures metrics == RegistrationMetrics(s, models)
  {
    metrics := [];
    var i := 0;
    while i < |models|
      invariant 0 <= i <= |models|
      invariant metrics == RegistrationMetrics(s, models[..i])
    {
      assert models[..i + 1][..i] == models[..i];
      var spec := models[i];
      if spec.category == "nlp" && spec.name in s.registrationTimes && s.registrationTimes[spec.name] > 0 {
        metrics := metrics + [ModelMetric(DisplayName(spec.name), s.registrationTimes[spec.name], "success",
                                          SuccessText, "registration")];
      }
      i := i + 1;
    }
    assert models[..i] == models;
  }

  /** buildInferenceMetrics. */
  method BuildInferenceMetrics(s: MetricsState, models: seq<ModelSpec>) returns (metrics: seq<ModelMetric>)
    ensures metrics == InferenceMetrics(s, models)
  {
    metrics := [];
    var i := 0;
    while i < |models|
      invariant 0 <= i <= |models|
      invariant metrics == InferenceMetrics(s, models[..i])
    {
      assert models[..i + 1][..i] == models[..i];
      var spec := models[i];
      if spec.category == "nlp" {
        ghost var before := metrics;
        if spec.name in s.inferenceTimes && s.inferenceTimes[spec.name] > 0 {
          var status := StatusOf(s.inferenceStatus, spec.name);
          var statusText := SuccessText;
          if status != "success" {
            statusText := FailedText;
          }
          metrics := metrics + [ModelMetric(DisplayName(spec.name), s.inferenceTimes[spec.name], status,
                                            statusText, "inference-small")];
        }
        if spec.name in s.largeInferenceTimes && s.largeInferenceTimes[spec.name] > 0 {
          var status := StatusOf(s.largeInferenceStatus, spec.name);
          var statusText := SuccessText;
          if status != "success" {
            statusText := FailedText;
          }
          metrics := metrics + [ModelMetric(DisplayName(spec.name), s.largeInferenceTimes[spec.name], status,
                                            statusText, "inference-large")];
        }
        assert metrics == before + InferenceEntries(s, spec.name);
      }
      i := i + 1;
    }
    assert models[..i] == models;
  }

  /** The chart entry of one metric: inference rows only, coloured by size. */
  function ChartEntry(m: ModelMetric): Chart {
    if m.kind == "inference-small" then Chart([m.name + " (small)"], [m.value], [SmallColor])
    else if m.kind == "inference-large" then Chart([m.name + " (large)"], [m.value], [LargeColor])
    else Chart([], [], [])
  }

  function ChartOf(metrics: seq<ModelMetric>): Chart {
    if metrics == [] then Chart([], [], [])
    else Append(ChartOf(metrics[..|metrics| - 1]), ChartEntry(metrics[|metrics| - 1]))
  }

  /** buildChartData, before the JSON encoding. */
  method BuildChartData(metrics: seq<ModelMetric>) returns (labels: seq<string>, data: seq<int>, colors: seq<string>)
    ensures Chart(labels, data, colors) == ChartOf(metrics)
  {
    labels, data, colors := [], [], [];
    var i := 0;
    while i < |metrics|
      invariant 0 <= i <= |metrics|
      invariant Chart(labels, data, colors) == ChartOf(metrics[..i])
    {
      assert metrics[..i + 1][..i] == metrics[..i];
      var m := metrics[i];
      if m.kind == "inference-small" {
        labels := labels + [m.name + " (small)"];
        data := data + [m.value];
        colors := colors + [SmallColor];
      } else if m.kind == "inference-large" {
        labels := labels + [m.name + " (large)"];
        data := data + [m.value];
        colors := colors + [LargeColor];
      }
      i := i + 1;
    }
    assert metrics[..i] == metrics;
  }

  /** The number of inference rows among the metrics. */
  function InferenceCount(metrics: seq<ModelMetric>): nat {
    if metrics == [] then 0
    else
      var k := metrics[|metrics| - 1].kind;
      InferenceCount(metrics[..|metrics| - 1]) + (if k == "inference-small" || k == "inference-large" then 1 else 0)
  }

  /**
   * The chart has three lists of one length, one element per inference row
   * in input order: other rows are ignored, and the values are the rows' values.
   */
  lemma {:induction false} ChartOfShape(metrics: seq<ModelMetric>)
    ensures var c := ChartOf(metrics);
      && |c.labels| == |c.data| == |c.colors| == InferenceCount(metrics)
      && (forall i :: 0 <= i < |c.colors| ==> c.colors[i] == SmallColor || c.colors[i] == LargeColor)
  {
    if metrics != [] {
      ChartOfShape(metrics[..|metrics| - 1]);
    }
  }

  lemma {:induction false} ChartOfAppend(xs: seq<ModelMetric>, ys: seq<ModelMetric>)
    ensures ChartOf(xs + ys) == Append(ChartOf(xs), ChartOf(ys))
    decreases |ys|
  {
    if ys == [] {
      assert xs + ys == xs;
    } else {
      assert (xs + ys)[..|xs + ys| - 1] == xs + ys[..|ys| - 1];
      assert (xs + ys)[|xs + ys| - 1] == ys[|ys| - 1];
      ChartOfAppend(xs, ys[..|ys| - 1]);
    }
  }

  /** The metric values in order. */
  function Values(metrics: seq<ModelMetric>): seq<int> {
    if metrics == [] then [] else Values(metrics[..|metrics| - 1]) + [metrics[|metrics| - 1].value]
  }

  /** One of PrepareData's two totals loops. */
  method TotalOf(metrics: seq<ModelMetric>) returns (total: int)
    ensures total == Sum(Values(metrics))
  {
    total := 0;
    var i := 0;
    while i < |metrics|
      invariant 0 <= i <= |metrics|
      invariant total == Sum(Values(metrics[..i]))
    {
      assert metrics[..i + 1][..i] == metrics[..i];
      total := total + metrics[i].value;
      i := i + 1;
    }
    assert metrics[..i] == metrics;
  }

  /**
   * Every registration row reports success with a positive value, and its
   * values are exactly the positive registration times of the language
   * models, in model order.
   */
  lemma {:induction false} RegistrationMetricsProperties(s: MetricsState, models: seq<ModelSpec>)
    ensures var r := RegistrationMetrics(s, models);
      && Values(r) == RegistrationTimes(s, models)
      && (forall i :: 0 <= i < |r| ==>
            r[i].kind == "registration" && r[i].status == "success" && r[i].statusText == SuccessText && r[i].value > 0)
  {
    if models != [] {
      var r0 := RegistrationMetrics(s, models[..|models| - 1]);
      RegistrationMetricsProperties(s, models[..|models| - 1]);
      var r := RegistrationMetrics(s, models);
      if r != r0 {
        assert r[..|r| - 1] == r0;
      }
    }
  }

  /** An inference row: small or large, a positive value, and "✅ Success" exactly for status "success". */
  predicate InferenceRow(m: ModelMetric) {
    && (m.kind == "inference-small" || m.kind == "inference-large")
    && m.value > 0
    && (m.statusText == SuccessText <==> m.status == "success")
  }

  /** Every row buildInferenceMetrics produces is an inference row. */
  lemma {:induction false} InferenceMetricsProperties(s: MetricsState, models: seq<ModelSpec>)
    ensures forall i :: 0 <= i < |InferenceMetrics(s, models)| ==> InferenceRow(InferenceMetrics(s, models)[i])
  {
    if models != [] {
      var m := models[|models| - 1];
      var r0 := InferenceMetrics(s, models[..|models| - 1]);
      InferenceMetricsProperties(s, models[..|models| - 1]);
      if m.category == "nlp" {
        var e := InferenceEntries(s, m.name);
        assert forall j :: 0 <= j < |e| ==> InferenceRow(e[j]);
        var r := r0 + e;
        assert r == InferenceMetrics(s, models);
        forall i | 0 <= i < |r|
          ensures InferenceRow(r[i])
        {
          if i < |r0| {
            assert r[i] == r0[i];
          } else {
            assert r[i] == e[i - |r0|];
          }
        }
      }
    }
  }

  /**
   * The chart built from the inference rows is the chart the HTML generator
   * builds directly from the metrics, so both reports plot the same points.
   */
  lemma {:induction false} ChartAgreesWithGenerator(s: MetricsState, models: seq<ModelSpec>)
    ensures ChartOf(InferenceMetrics(s, models)) == TemplateChart(s, models)
    ensures Values(InferenceMetrics(s, models)) == TemplateChart(s, models).data
  {
    if models != [] {
      var init := models[..|models| - 1];
      var m := models[|models| - 1];
      ChartAgreesWithGenerator(s, init);
      if m.category == "nlp" {
        var e := InferenceEntries(s, m.name);
        ChartOfAppend(InferenceMetrics(s, init), e);
        ValuesAppend(InferenceMetrics(s, init), e);
        EntriesChart(s, m.name);
      }
    }
  }

  /** One model's inference rows chart and sum exactly as the generator's entries for that model. */
  lemma EntriesChart(s: MetricsState, name: string)
    ensures ChartOf(InferenceEntries(s, name)) == ModelChart(s, name)
    ensures Values(InferenceEntries(s, name)) == ModelChart(s, name).data
  {
    var e := InferenceEntries(s, name);
    var small := e[..if PositiveTime(s.inferenceTimes, name) then 1 else 0];
    var large := e[|small|..];
    assert e == small + large;
    ChartOfAppend(small, large);
    ValuesAppend(small, large);
    if small != [] {
      assert small[..0] == [];
    }
    if large != [] {
      assert large[..0] == [];
    }
  }

  lemma {:induction false} ValuesAppend(xs: seq<ModelMetric>, ys: seq<ModelMetric>)
    ensures Values(xs + ys) == Values(xs) + Values(ys)
    decreases |ys|
  {
    if ys == [] {
      assert xs + ys == xs;
    } else {
      assert (xs + ys)[..|xs + ys| - 1] == xs + ys[..|ys| - 1];
      assert (xs + ys)[|xs + ys| - 1] == ys[|ys| - 1];
      ValuesAppend(xs, ys[..|ys| - 1]);
    }
  }

  /** The values of PrepareData the model covers. */
  datatype ReportValues = ReportValues(
    successRate: real,
    summaryCardClass: string,
    successfulInferences: int,
    totalInferences: int,
    modelsInstalled: int,
    axonVersion: string,
    coreVersion: string,
    axonDownloadTime: int,
    coreDownloadTime: int,
    coreStartupTime: int,
    registrationMetrics: seq<ModelMetric>,
    inferenceMetrics: seq<ModelMetric>,
    chart: Chart,
    totalInferenceTime: int,
    totalRegisterTime: int,
    hardwareSpecs: Option<map<string, string>>,
    categoryStatuses: CategoryStatusMap)

  function DataSpec(axonVersion: string, coreVersion: string, successRate: real, s: MetricsState,
                    hardwareSpecs: Option<map<string, string>>, testAllModels: bool,
                    formatMemory: string -> string): ReportValues {
    var models := TestModels(testAllModels);
    var reg := RegistrationMetrics(s, models);
    var inf := InferenceMetrics(s, models);
    ReportValues(successRate, SummaryCardClass(successRate), s.successfulInferences, s.totalInferences,
      s.modelsInstalled, axonVersion, coreVersion, s.axonDownloadTimeMs, s.coreDownloadTimeMs, s.coreStartupTimeMs,
      reg, inf, ChartOf(inf), Sum(Values(inf)), Sum(Values(reg)),
      FormatHardwareSpecs(hardwareSpecs, formatMemory),
      Entries(TallyOf(models, s.inferenceStatus), {"nlp", "vision", "multimodal"}))
  }

  /** PrepareData, for the values the model covers. */
  method PrepareData(results: Results, testAllModels: bool, formatMemory: string -> string) returns (data: ReportValues)
    ensures data == DataSpec(results.axonVersion, results.coreVersion, results.successRate,
                             results.metrics.State(), Some(results.hardwareSpecs), testAllModels, formatMemory)
  {
    var s := results.metrics.State();
    var summaryCardClass := "success";
    if results.successRate < 100.0 {
      summaryCardClass := "warning";
    }
    var testModels := TestModels(testAllModels);
    var registrationMetrics := BuildRegistrationMetrics(s, testModels);
    var inferenceMetrics := BuildInferenceMetrics(s, testModels);
    var totalRegisterTime := TotalOf(registrationMetrics);
    var totalInferenceTime := TotalOf(inferenceMetrics);
    var labels, values, colors := BuildChartData(inferenceMetrics);
    var categoryStatuses := CategoryStatuses(s.inferenceStatus, testModels);
    data := ReportValues(results.successRate, summaryCardClass, s.successfulInferences, s.totalInferences,
      s.modelsInstalled, results.axonVersion, results.coreVersion, s.axonDownloadTimeMs, s.coreDownloadTimeMs,
      s.coreStartupTimeMs, registrationMetrics, inferenceMetrics, Chart(labels, values, colors),
      totalInferenceTime, totalRegisterTime, FormatHardwareSpecs(Some(results.hardwareSpecs), formatMemory),
      categoryStatuses);
  }

  /**
   * PrepareData and the HTML generator's prepareTemplateData agree on every
   * value both produce: card class, counters, chart, both totals, hardware
   * specs and category badges.
   */
  lemma ReportsAgree(axonVersion: string, coreVersion: string, successRate: real, s: MetricsState,
                     hardwareSpecs: Option<map<string, string>>, testAllModels: bool, formatMemory: string -> string)
    ensures var d := DataSpec(axonVersion, coreVersion, successRate, s, hardwareSpecs, testAllModels, formatMemory);
      var t := TemplateSpec(axonVersion, coreVersion, successRate, s, hardwareSpecs, testAllModels, formatMemory);
      && d.summaryCardClass == t.summaryCardClass
      && (d.summaryCardClass == "warning" <==> successRate < 100.0)
      && d.successfulInferences == t.successfulInferences && d.totalInferences == t.totalInferences
      && d.modelsInstalled == t.modelsInstalled
      && d.chart == t.chart
      && d.totalInferenceTime == t.totalInferenceTime
      && d.totalRegisterTime == t.totalRegisterTime
      && d.hardwareSpecs == t.hardwareSpecs
      && d.categoryStatuses == t.categoryStatuses
  {
    var models := TestModels(testAllModels);
    ChartAgreesWithGenerator(s, models);
    RegistrationMetricsProperties(s, models);
  }
}
