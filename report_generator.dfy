// The data side of the Go HTML report generator: display names, hardware
// key renaming, per-category status badges and the chart lists and totals of
// prepareTemplateData. HTML fragments, JSON encoding, resource usage and the
// timestamp are not modelled.
module ReportGenerator {
  import opened Text
  import opened Json
  import opened TestTypes

  const DisplayNames := map["gpt2" := "GPT-2", "bert" := "BERT", "roberta" := "RoBERTa", "t5" := "T5",
                            "resnet" := "ResNet", "vgg" := "VGG", "clip" := "CLIP"]

  /** getDisplayName: the fixed table entry, else the name upper-cased. */
  function DisplayName(name: string): string {
    if name in DisplayNames then DisplayNames[name] else Upper(name)
  }

  /** The display names of the seven test models, in test-model order. */
  const TestDisplayNames := ["GPT-2", "BERT", "RoBERTa", "T5", "ResNet", "VGG", "CLIP"]

  /** Every test model has a table entry, and no two test models share a display name. */
  lemma TestModelDisplayNames(testAllModels: bool)
    ensures forall i :: 0 <= i < |TestModels(testAllModels)| ==>
              DisplayName(TestModels(testAllModels)[i].name) == TestDisplayNames[i]
    ensures forall i, j :: 0 <= i < j < |TestModels(testAllModels)| ==>
              DisplayName(TestModels(testAllModels)[i].name) != DisplayName(TestModels(testAllModels)[j].name)
  {
    var ms := TestModels(true);
    assert ms[0].name == "gpt2" && ms[1].name == "bert" && ms[2].name == "roberta" && ms[3].name == "t5";
    assert ms[4].name == "resnet" && ms[5].name == "vgg" && ms[6].name == "clip";
    forall i, j | 0 <= i < j < |TestDisplayNames|
      ensures TestDisplayNames[i] != TestDisplayNames[j]
    {
      assert TestDisplayNames[i][0] != TestDisplayNames[j][0] || |TestDisplayNames[i]| != |TestDisplayNames[j]|;
    }
  }

  /** Names outside the table are shown upper-cased, character for character. */
  lemma DisplayNameFallback(name: string)
    requires name !in DisplayNames
    ensures |DisplayName(name)| == |name|
    ensures forall i :: 0 <= i < |name| ==> DisplayName(name)[i] == UpperChar(name[i])
  {
  }

  /** A key copied under a new name when present. */
  function CopyKey(dst: map<string, string>, src: map<string, string>, from: string, to: string, f: string -> string): map<string, string> {
    if from in src then dst[to := f(src[from])] else dst
  }

  function Identity(s: string): string { s }

  function StripChipset(s: string): string { TrimPrefix(s, "Chipset Model: ") }

  /**
   * formatHardwareSpecs: os, arch, cpu, memory and gpu are renamed OS, Arch,
   * CPU, Memory and GPU when present. Memory goes through `formatMemory` (a
   * parameter: its GB conversion is floating point) and a leading
   * "Chipset Model: " is stripped from the GPU value. An absent map stays absent.
   */
  function FormatHardwareSpecs(specs: Option<map<string, string>>, formatMemory: string -> string): Option<map<string, string>> {
    if specs.None? then None
    else
      var s := specs.value;
      var f := CopyKey(map[], s, "os", "OS", Identity);
      var f := CopyKey(f, s, "arch", "Arch", Identity);
      var f := CopyKey(f, s, "cpu", "CPU", Identity);
      var f := CopyKey(f, s, "memory", "Memory", formatMemory);
      var f := CopyKey(f, s, "gpu", "GPU", StripChipset);
      Some(f)
  }

  /** Only present keys are renamed, values are kept (memory formatted, GPU stripped), nothing else appears. */
  lemma FormatHardwareSpecsKeys(specs: Option<map<string, string>>, formatMemory: string -> string)
    ensures FormatHardwareSpecs(specs, formatMemory).None? <==> specs.None?
    ensures specs.Some? ==>
      var r := FormatHardwareSpecs(specs, formatMemory).value;
      var s := specs.value;
      && r.Keys <= {"OS", "Arch", "CPU", "Memory", "GPU"}
      && ("OS" in r <==> "os" in s) && ("OS" in r ==> r["OS"] == s["os"])
      && ("Arch" in r <==> "arch" in s) && ("Arch" in r ==> r["Arch"] == s["arch"])
      && ("CPU" in r <==> "cpu" in s) && ("CPU" in r ==> r["CPU"] == s["cpu"])
      && ("Memory" in r <==> "memory" in s) && ("Memory" in r ==> r["Memory"] == formatMemory(s["memory"]))
      && ("GPU" in r <==> "gpu" in s) && ("GPU" in r ==> r["GPU"] == TrimPrefix(s["gpu"], "Chipset Model: "))
  {
  }

  /** Per-category counts: models, models with a small-inference status, and those whose status is "success". */
  datatype Tally = Tally(total: map<string, int>, tested: map<string, int>, passed: map<string, int>)

  const Zeroes := map["nlp" := 0, "vision" := 0, "multimodal" := 0]

  function Count(m: map<string, int>, k: string): int {
    if k in m then m[k] else 0
  }

  /** Go's `m[k]++`: a missing key starts from zero. */
  function Inc(m: map<string, int>, k: string): map<string, int> {
    m[k := Count(m, k) + 1]
  }

  function TallyStep(t: Tally, spec: ModelSpec, status: map<string, string>): Tally {
    var t1 := t.(total := Inc(t.total, spec.category));
    if spec.name !in status then t1
    else if status[spec.name] == "success" then
      t1.(tested := Inc(t.tested, spec.category), passed := Inc(t.passed, spec.category))
    else t1.(tested := Inc(t.tested, spec.category))
  }

  function TallyOf(models: seq<ModelSpec>, status: map<string, string>): Tally {
    if models == [] then Tally(Zeroes, Zeroes, Zeroes)
    else TallyStep(TallyOf(models[..|models| - 1], status), models[|models| - 1], status)
  }

  function CountCategory(models: seq<ModelSpec>, c: string, status: map<string, string>, needTested: bool, needPassed: bool): nat {
    if models == [] then 0
    else
      var m := models[|models| - 1];
      var hit := m.category == c && (!needTested || m.name in status) && (!needPassed || (m.name in status && status[m.name] == "success"));
      CountCategory(models[..|models| - 1], c, status, needTested, needPassed) + (if hit then 1 else 0)
  }

  /**
   * The tally counts, per category, all its models, those with a status, and
   * those with status "success"; so passed <= tested <= total.
   */
  lemma {:induction false} TallyCounts(models: seq<ModelSpec>, status: map<string, string>, c: string)
    ensures Count(TallyOf(models, status).total, c) == CountCategory(models, c, status, false, false)
    ensures Count(TallyOf(models, status).tested, c) == CountCategory(models, c, status, true, false)
    ensures Count(TallyOf(models, status).passed, c) == CountCategory(models, c, status, true, true)
    ensures 0 <= Count(TallyOf(models, status).passed, c) <= Count(TallyOf(models, status).tested, c)
              <= Count(TallyOf(models, status).total, c)
  {
    if models != [] {
      TallyCounts(models[..|models| - 1], status, c);
    }
  }

  /** The counting loop of calculateCategoryStatuses. */
  method TallyModels(models: seq<ModelSpec>, status: map<string, string>) returns (t: Tally)
    ensures t == TallyOf(models, status)
  {
    var categories := Zeroes;
    var categoryPassed := Zeroes;
    var categoryTested := Zeroes;
    var i := 0;
    while i < |models|
      invariant 0 <= i <= |models|
      invariant Tally(categories, categoryTested, categoryPassed) == TallyOf(models[..i], status)
    {
      assert models[..i + 1][..i] == models[..i];
      var spec := models[i];
      categories := Inc(categories, spec.category);
      if spec.name in status {
        categoryTested := Inc(categoryTested, spec.category);
        if status[spec.name] == "success" {
          categoryPassed := Inc(categoryPassed, spec.category);
        }
      }
      i := i + 1;
    }
    assert models[..i] == models;
    t := Tally(categories, categoryTested, categoryPassed);
  }

  /** One category's badge text and CSS class. */
  datatype Badge = Badge(text: string, cssClass: string)

  function CategoryBadge(total: int, tested: int, passed: int): Badge {
    if tested == 0 then Badge("\U{23F8}\U{FE0F} Not Tested", "ready")
    else if passed == tested && tested == total then Badge("\U{2705} Passing", "success")
    else if passed == tested then
      Badge("\U{2705} Passing (" + IntToString(tested) + "/" + IntToString(total) + " tested)", "success")
    else Badge("\U{274C} Failed (" + IntToString(passed) + "/" + IntToString(tested) + " passed)", "failed")
  }

  /** The badge is "ready" iff nothing was tested, "success" iff something was and all of it passed. */
  lemma CategoryBadgeClass(total: int, tested: int, passed: int)
    ensures CategoryBadge(total, tested, passed).cssClass == "ready" <==> tested == 0
    ensures CategoryBadge(total, tested, passed).cssClass == "success" <==> tested != 0 && passed == tested
    ensures CategoryBadge(total, tested, passed).cssClass == "failed" <==> tested != 0 && passed != tested
    ensures tested != 0 && passed == tested && tested == total ==> CategoryBadge(total, tested, passed).text == "\U{2705} Passing"
  {
  }

  /**
   * The status entries of the template map: NLPStatus/NLPClass,
   * VisionStatus/VisionClass and MultimodalStatus/MultimodalClass, each pair
   * present or absent together.
   */
  datatype CategoryStatusMap = CategoryStatusMap(nlp: Option<Badge>, vision: Option<Badge>, multimodal: Option<Badge>)

  function BadgeOf(t: Tally, c: string): Badge {
    CategoryBadge(Count(t.total, c), Count(t.tested, c), Count(t.passed, c))
  }

  /** The entries of the known categories among `done`. */
  function Entries(t: Tally, done: set<string>): CategoryStatusMap {
    CategoryStatusMap(
      if "nlp" in done then Some(BadgeOf(t, "nlp")) else None,
      if "vision" in done then Some(BadgeOf(t, "vision")) else None,
      if "multimodal" in done then Some(BadgeOf(t, "multimodal")) else None)
  }

  /** One pass of the category loop: the badge entry of a known category is set, any other is ignored. */
  method SetBadge(statuses: CategoryStatusMap, t: Tally, ghost done: set<string>, cat: string)
    returns (statuses': CategoryStatusMap)
    requires statuses == Entries(t, done)
    ensures statuses' == Entries(t, done + {cat})
  {
    var badge := CategoryBadge(Count(t.total, cat), Count(t.tested, cat), Count(t.passed, cat));
    statuses' := statuses;
    if cat == "nlp" {
      statuses' := statuses.(nlp := Some(badge));
    } else if cat == "vision" {
      statuses' := statuses.(vision := Some(badge));
    } else if cat == "multimodal" {
      statuses' := statuses.(multimodal := Some(badge));
    }
  }

  /**
   * calculateCategoryStatuses: the tally loop, then one pass over the
   * categories in whatever order the map yields them; categories other than
   * the three known ones are counted but produce no entry.
   */
  method CategoryStatuses(status: map<string, string>, models: seq<ModelSpec>) returns (statuses: CategoryStatusMap)
    ensures statuses == Entries(TallyOf(models, status), {"nlp", "vision", "multimodal"})
  {
    var t := TallyModels(models, status);
    statuses := CategoryStatusMap(None, None, None);
    var remaining := t.total.Keys;
    ghost var done: set<string> := {};
    TallyKeys(models, status);
    while remaining != {}
      invariant remaining !! done && remaining + done == t.total.Keys
      invariant statuses == Entries(t, done)
      decreases |remaining|
    {
      var cat :| cat in remaining;
      statuses := SetBadge(statuses, t, done, cat);
      remaining := remaining - {cat};
      done := done + {cat};
    }
  }

  lemma {:induction false} TallyKeys(models: seq<ModelSpec>, status: map<string, string>)
    ensures {"nlp", "vision", "multimodal"} <= TallyOf(models, status).total.Keys
  {
    if models != [] {
      TallyKeys(models[..|models| - 1], status);
    }
  }

  /** The chart lists and totals prepareTemplateData accumulates. */
  datatype Chart = Chart(labels: seq<string>, data: seq<int>, colors: seq<string>)

  const SmallColor := "rgba(102, 126, 234, 0.8)"
  const LargeColor := "rgba(118, 75, 162, 0.8)"

  /** A time recorded for `name` that is positive. */
  predicate PositiveTime(times: map<string, int>, name: string) {
    name in times && times[name] > 0
  }

  /** The chart entries one language model contributes: small, then large, each only for a positive time. */
  function ModelChart(s: MetricsState, name: string): Chart {
    var small := if PositiveTime(s.inferenceTimes, name)
      then Chart([DisplayName(name) + " (small)"], [s.inferenceTimes[name]], [SmallColor]) else Chart([], [], []);
    var large := if PositiveTime(s.largeInferenceTimes, name)
      then Chart([DisplayName(name) + " (large)"], [s.largeInferenceTimes[name]], [LargeColor]) else Chart([], [], []);
    Append(small, large)
  }

  /** Chart lists concatenated pairwise. */
  function Append(c: Chart, d: Chart): Chart {
    Chart(c.labels + d.labels, c.data + d.data, c.colors + d.colors)
  }

  function TemplateChart(s: MetricsState, models: seq<ModelSpec>): Chart {
    if models == [] then Chart([], [], [])
    else
      var c := TemplateChart(s, models[..|models| - 1]);
      var m := models[|models| - 1];
      if m.category != "nlp" then c
      else
        Append(c, ModelChart(s, m.name))
  }

  function Sum(xs: seq<int>): int {
    if xs == [] then 0 else Sum(xs[..|xs| - 1]) + xs[|xs| - 1]
  }

  /** The positive registration times of the language models, in model order. */
  function RegistrationTimes(s: MetricsState, models: seq<ModelSpec>): seq<int> {
    if models == [] then []
    else
      var r := RegistrationTimes(s, models[..|models| - 1]);
      var m := models[|models| - 1];
      if m.category == "nlp" && PositiveTime(s.registrationTimes, m.name) then r + [s.registrationTimes[m.name]] else r
  }

  /** The template values the model covers. */
  datatype TemplateData = TemplateData(
    successRate: real,
    summaryCardClass: string,
    successfulInferences: int,
    totalInferences: int,
    modelsInstalled: int,
    axonVersion: string,
    coreVersion: string,
    chart: Chart,
    totalInferenceTime: int,
    totalRegisterTime: int,
    hardwareSpecs: Option<map<string, string>>,
    categoryStatuses: CategoryStatusMap)

  /** "warning" below 100 percent, "success" otherwise. */
  function SummaryCardClass(successRate: real): string {
    if successRate < 100.0 then "warning" else "success"
  }

  function TemplateSpec(axonVersion: string, coreVersion: string, successRate: real, s: MetricsState,
                        hardwareSpecs: Option<map<string, string>>, testAllModels: bool,
                        formatMemory: string -> string): TemplateData {
    var models := TestModels(testAllModels);
    var chart := TemplateChart(s, models);
    TemplateData(successRate, SummaryCardClass(successRate), s.successfulInferences, s.totalInferences,
      s.modelsInstalled, axonVersion, coreVersion, chart, Sum(chart.data),
      Sum(RegistrationTimes(s, models)), FormatHardwareSpecs(hardwareSpecs, formatMemory),
      Entries(TallyOf(models, s.inferenceStatus), {"nlp", "vision", "multimodal"}))
  }

  lemma SumAppend(xs: seq<int>, ys: seq<int>)
    ensures Sum(xs + ys) == Sum(xs) + Sum(ys)
    decreases |ys|
  {
    if ys != [] {
      assert (xs + ys)[..|xs + ys| - 1] == xs + ys[..|ys| - 1];
      assert (xs + ys)[|xs + ys| - 1] == ys[|ys| - 1];
      SumAppend(xs, ys[..|ys| - 1]);
    } else {
      assert xs + ys == xs;
    }
  }

  /** One chart point appended, with the running total kept. */
  method AppendPoint(chart: Chart, total: int, caption: string, time: int, color: string)
    returns (chart': Chart, total': int)
    requires total == Sum(chart.data)
    ensures chart' == Append(chart, Chart([caption], [time], [color]))
    ensures total' == Sum(chart'.data)
  {
    SumAppend(chart.data, [time]);
    chart' := Chart(chart.labels + [caption], chart.data + [time], chart.colors + [color]);
    total' := total + time;
  }

  /** The body of prepareTemplateData's loop for one language model: its small entry, then its large one. */
  method AppendModelChart(s: MetricsState, name: string, chart: Chart, total: int)
    returns (chart': Chart, total': int)
    requires total == Sum(chart.data)
    ensures chart' == Append(chart, ModelChart(s, name))
    ensures total' == Sum(chart'.data)
  {
    chart', total' := chart, total;
    if name in s.inferenceTimes && s.inferenceTimes[name] > 0 {
      chart', total' := AppendPoint(chart', total', DisplayName(name) + " (small)", s.inferenceTimes[name], SmallColor);
    }
    if name in s.largeInferenceTimes && s.largeInferenceTimes[name] > 0 {
      chart', total' := AppendPoint(chart', total', DisplayName(name) + " (large)", s.largeInferenceTimes[name], LargeColor);
    }
    var d := ModelChart(s, name);
    assert chart'.labels == chart.labels + d.labels;
    assert chart'.data == chart.data + d.data;
    assert chart'.colors == chart.colors + d.colors;
  }

  /** The per-model loop of prepareTemplateData: chart entries appended and both totals accumulated. */
  method BuildTemplateChart(s: MetricsState, testModels: seq<ModelSpec>)
    returns (chart: Chart, totalInferenceTime: int, totalRegisterTime: int)
    ensures chart == TemplateChart(s, testModels)
    ensures totalInferenceTime == Sum(chart.data)
    ensures totalRegisterTime == Sum(RegistrationTimes(s, testModels))
  {
    chart := Chart([], [], []);
    totalInferenceTime := 0;
    totalRegisterTime := 0;
    var i := 0;
    while i < |testModels|
      invariant 0 <= i <= |testModels|
      invariant chart == TemplateChart(s, testModels[..i])
      invariant totalInferenceTime == Sum(chart.data)
      invariant totalRegisterTime == Sum(RegistrationTimes(s, testModels[..i]))
    {
      assert testModels[..i + 1][..i] == testModels[..i];
      var spec := testModels[i];
      if spec.category == "nlp" {
        if spec.name in s.registrationTimes && s.registrationTimes[spec.name] > 0 {
          SumAppend(RegistrationTimes(s, testModels[..i]), [s.registrationTimes[spec.name]]);
          totalRegisterTime := totalRegisterTime + s.registrationTimes[spec.name];
        }
        chart, totalInferenceTime := AppendModelChart(s, spec.name, chart, totalInferenceTime);
      }
      i := i + 1;
    }
    assert testModels[..i] == testModels;
  }

  /** prepareTemplateData, for the values the model covers. */
  method PrepareTemplateData(results: Results, testAllModels: bool, formatMemory: string -> string)
    returns (data: TemplateData)
    ensures data == TemplateSpec(results.axonVersion, results.coreVersion, results.successRate,
                                 results.metrics.State(), Some(results.hardwareSpecs), testAllModels, formatMemory)
  {
    var s := results.metrics.State();
    var testModels := TestModels(testAllModels);
    var chart, totalInferenceTime, totalRegisterTime := BuildTemplateChart(s, testModels);
    var categoryStatuses := CategoryStatuses(s.inferenceStatus, testModels);
    var summaryCardClass := "success";
    if results.successRate < 100.0 {
      summaryCardClass := "warning";
    }
    data := TemplateData(results.successRate, summaryCardClass, s.successfulInferences, s.totalInferences,
      s.modelsInstalled, results.axonVersion, results.coreVersion, chart,
      totalInferenceTime, totalRegisterTime, FormatHardwareSpecs(Some(results.hardwareSpecs), formatMemory),
      categoryStatuses);
  }

  /**
   * The chart lists always have equal length, one entry per positive small or
   * large time of a language model, every value positive; the inference total
   * is their sum.
   */
  lemma {:induction false} TemplateChartShape(s: MetricsState, models: seq<ModelSpec>)
    ensures var c := TemplateChart(s, models);
      && |c.labels| == |c.data| == |c.colors|
      && (forall i :: 0 <= i < |c.data| ==> c.data[i] > 0)
      && (forall i :: 0 <= i < |c.colors| ==> c.colors[i] == SmallColor || c.colors[i] == LargeColor)
  {
    if models != [] {
      TemplateChartShape(s, models[..|models| - 1]);
    }
  }
}
