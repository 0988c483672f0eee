// The Python report renderer: the overall and per-category test status,
// the status badge of one model, the inference chart series, and the
// template rendering loop that substitutes placeholders longest key first.
// The metrics file is read into the typed models object of MetricsFile;
// the percentage is an exact real (its rounding to one decimal is not
// modelled), and the chart lists are kept as lists rather than as their
// JSON text.
module ReportRender {
  import opened Json
  import opened Fractions
  import opened Text
  import opened MetricsFile
  import opened Ranking

  predicate Succeeded(s: Option<string>) {
    s == Some("success")
  }

  /** A model with a truthy `tested` key. */
  predicate Tested(e: ModelEntry) {
    Flag(e.tested)
  }

  /** The number of tested models: the `{{MODELS_TESTED}}` figure. */
  function TestedCount(models: Models): nat {
    if models == [] then 0
    else TestedCount(models[..|models| - 1]) + (if Tested(models[|models| - 1].1) then 1 else 0)
  }

  // ---------------------------------------------------------------- overall status

  datatype Counts = Counts(total: nat, passed: nat)

  /** One model's tests: one small test when tested, and a large one when its status is success or it is marked tested. */
  function OverallStep(c: Counts, e: ModelEntry): Counts {
    if !Tested(e) then c
    else
      var small := Counts(c.total + 1, if Succeeded(e.inferenceStatus) then c.passed + 1 else c.passed);
      if Succeeded(e.inferenceLargeStatus) then Counts(small.total + 1, small.passed + 1)
      else if Flag(e.inferenceLargeTested) then Counts(small.total + 1, small.passed)
      else small
  }

  function OverallCounts(models: Models): Counts {
    if models == [] then Counts(0, 0) else OverallStep(OverallCounts(models[..|models| - 1]), models[|models| - 1].1)
  }

  /** The percentage of passed tests, 0 when there is none. */
  function SuccessRate(c: Counts): real {
    if c.total > 0 then (c.passed as real) / (c.total as real) * 100.0 else 0.0
  }

  function StatusClass(rate: real): string {
    if rate == 100.0 then "success" else if rate >= 50.0 then "warning" else "failed"
  }

  datatype OverallStatus = OverallStatus(totalTests: nat, passedTests: nat, successRate: real, statusClass: string)

  function OverallSpec(models: Models): OverallStatus {
    var c := OverallCounts(models);
    OverallStatus(c.total, c.passed, SuccessRate(c), StatusClass(SuccessRate(c)))
  }

  /** calculate_overall_status. */
  method CalculateOverallStatus(models: Models) returns (status: OverallStatus)
    ensures status == OverallSpec(models)
  {
    var total: nat := 0;
    var passed: nat := 0;
    var i := 0;
    while i < |models|
      invariant 0 <= i <= |models|
      invariant Counts(total, passed) == OverallCounts(models[..i])
    {
      assert models[..i + 1][..i] == models[..i];
      var e := models[i].1;
      if Flag(e.tested) {
        total := total + 1;
        if e.inferenceStatus == Some("success") {
          passed := passed + 1;
        }
        if e.inferenceLargeStatus == Some("success") {
          total := total + 1;
          passed := passed + 1;
        } else if Flag(e.inferenceLargeTested) {
          total := total + 1;
        }
      }
      i := i + 1;
    }
    assert models[..i] == models;
    var c := Counts(total, passed);
    status := OverallStatus(total, passed, SuccessRate(c), StatusClass(SuccessRate(c)));
  }

  /**
   * Only tested models count: each adds one or two tests, so the passed
   * tests never exceed the total, and there is no test exactly when no
   * model is tested.
   */
  lemma {:induction false} OverallBounds(models: Models)
    ensures OverallCounts(models).passed <= OverallCounts(models).total
    ensures TestedCount(models) <= OverallCounts(models).total <= 2 * TestedCount(models)
  {
    if models != [] {
      OverallBounds(models[..|models| - 1]);
    }
  }

  /**
   * The status class on the counts: "success" exactly when every test
   * passed (and there was one), "warning" when at least half but not all
   * passed, "failed" otherwise, including when nothing was tested.
   */
  lemma StatusClassOnCounts(c: Counts)
    requires c.passed <= c.total
    ensures StatusClass(SuccessRate(c)) == "success" <==> c.total > 0 && c.passed == c.total
    ensures StatusClass(SuccessRate(c)) == "warning" <==> c.total > 0 && c.passed < c.total && 2 * c.passed >= c.total
    ensures StatusClass(SuccessRate(c)) == "failed" <==> c.total == 0 || 2 * c.passed < c.total
    ensures 0.0 <= SuccessRate(c) <= 100.0
  {
    if c.total > 0 {
      Ratio(c.passed, c.total);
    }
  }

  /** The fraction passed/total lies in [0, 1], is 1 exactly when all passed and at least 1/2 exactly when half did. */
  lemma Ratio(p: nat, t: nat)
    requires 0 < t && p <= t
    ensures 0.0 <= (p as real) / (t as real) <= 1.0
    ensures (p as real) / (t as real) == 1.0 <==> p == t
    ensures (p as real) / (t as real) >= 0.5 <==> 2 * p >= t
  {
    DivBounds(p as real, t as real);
    DivIsOne(p as real, t as real);
    DivAtLeastHalf(p as real, t as real);
  }

  // ---------------------------------------------------------------- category status

  /** A tested model of the category. */
  predicate CountsIn(e: ModelEntry, category: string) {
    e.category == Some(category) && Tested(e)
  }

  function CategoryCounts(models: Models, category: string): Counts {
    if models == [] then Counts(0, 0)
    else
      var c := CategoryCounts(models[..|models| - 1], category);
      var e := models[|models| - 1].1;
      if CountsIn(e, category) then Counts(c.total + 1, if Succeeded(e.inferenceStatus) then c.passed + 1 else c.passed)
      else c
  }

  datatype CategoryStatus = CategoryStatus(status: string, statusClass: string, tested: nat, passed: nat)

  function CategoryBadge(c: Counts): CategoryStatus {
    if c.total == 0 then CategoryStatus("⏳ Ready", "ready_not_tested", 0, 0)
    else if c.passed == c.total then CategoryStatus("✅ Passing", "success", c.total, c.passed)
    else CategoryStatus("❌ Failed", "failed", c.total, c.passed)
  }

  /** calculate_category_status. */
  method CalculateCategoryStatus(models: Models, category: string) returns (status: CategoryStatus)
    ensures status == CategoryBadge(CategoryCounts(models, category))
  {
    var tested: nat := 0;
    var passed: nat := 0;
    var i := 0;
    while i < |models|
      invariant 0 <= i <= |models|
      invariant Counts(tested, passed) == CategoryCounts(models[..i], category)
    {
      assert models[..i + 1][..i] == models[..i];
      var e := models[i].1;
      if e.category == Some(category) && Flag(e.tested) {
        tested := tested + 1;
        if e.inferenceStatus == Some("success") {
          passed := passed + 1;
        }
      }
      i := i + 1;
    }
    assert models[..i] == models;
    status := CategoryBadge(Counts(tested, passed));
  }

  /**
   * The category counts on the models themselves: none tested exactly when
   * no model of the category is tested, all passed exactly when every
   * tested model of the category has a successful inference.
   */
  lemma {:induction false} CategoryCountsMeaning(models: Models, category: string)
    ensures CategoryCounts(models, category).passed <= CategoryCounts(models, category).total
    ensures CategoryCounts(models, category).total == 0 <==>
              forall i :: 0 <= i < |models| ==> !CountsIn(models[i].1, category)
    ensures CategoryCounts(models, category).passed == CategoryCounts(models, category).total <==>
              forall i :: 0 <= i < |models| && CountsIn(models[i].1, category) ==> Succeeded(models[i].1.inferenceStatus)
  {
    if models != [] {
      var init := models[..|models| - 1];
      CategoryCountsMeaning(init, category);
      assert forall i :: 0 <= i < |init| ==> init[i] == models[i];
    }
  }

  /** The badge is "ready" for an untested category, "success" when all its tested models passed, else "failed". */
  lemma CategoryStatusMeaning(models: Models, category: string)
    ensures var s := CategoryBadge(CategoryCounts(models, category));
      && (s.statusClass == "ready_not_tested" <==> forall i :: 0 <= i < |models| ==> !CountsIn(models[i].1, category))
      && (s.statusClass == "success" <==>
            (exists i :: 0 <= i < |models| && CountsIn(models[i].1, category))
            && forall i :: 0 <= i < |models| && CountsIn(models[i].1, category) ==> Succeeded(models[i].1.inferenceStatus))
      && (s.statusClass == "failed" <==>
            exists i :: 0 <= i < |models| && CountsIn(models[i].1, category) && !Succeeded(models[i].1.inferenceStatus))
      && s.passed <= s.tested
  {
    CategoryCountsMeaning(models, category);
  }

  // ---------------------------------------------------------------- one model's badge

  datatype ModelStatus = ModelStatus(status: string, statusClass: string)

  /** get_model_status: the large keys for "large", the small ones for any other test type; an absent model is untested. */
  function GetModelStatus(models: Models, name: string, testType: string): (r: ModelStatus)
    ensures r.statusClass == "ready_not_tested" <==>
              Find(models, name).None? ||
              !Flag(if testType == "large" then Find(models, name).value.inferenceLargeTested else Find(models, name).value.tested)
    ensures r.statusClass == "success" <==>
              Find(models, name).Some? &&
              (if testType == "large" then Flag(Find(models, name).value.inferenceLargeTested) && Succeeded(Find(models, name).value.inferenceLargeStatus)
               else Tested(Find(models, name).value) && Succeeded(Find(models, name).value.inferenceStatus))
    ensures r.status == (if r.statusClass == "success" then "✅" else if r.statusClass == "failed" then "❌" else "⏳")
  {
    var e := if Find(models, name).Some? then Find(models, name).value else CategoryOnly("");
    var tested := if testType == "large" then e.inferenceLargeTested else e.tested;
    var status := if testType == "large" then e.inferenceLargeStatus else e.inferenceStatus;
    if Find(models, name).None? || !Flag(tested) then ModelStatus("⏳", "ready_not_tested")
    else if Succeeded(status) then ModelStatus("✅", "success")
    else ModelStatus("❌", "failed")
  }

  /** A tested model's small badge agrees with whether its small test counts as passed overall. */
  lemma ModelStatusAgreesWithOverall(models: Models, i: nat)
    requires DistinctKeys(models) && i < |models| && Tested(models[i].1)
    ensures GetModelStatus(models, models[i].0, "small").statusClass == "success" <==> Succeeded(models[i].1.inferenceStatus)
    ensures GetModelStatus(models, models[i].0, "small").statusClass != "ready_not_tested"
  {
    FindDistinct(models, i);
  }

  // ---------------------------------------------------------------- inference chart

  const ColorMap: seq<(string, string)> :=
    [("gpt2", "#667eea"), ("bert", "#764ba2"), ("roberta", "#f093fb"), ("resnet", "#11998e"), ("vgg", "#38ef7d")]

  const DefaultColor := "#888888"

  function ColorFor(name: string): string {
    if Find(ColorMap, name).Some? then Find(ColorMap, name).value else DefaultColor
  }

  datatype ChartEntry = ChartEntry(caption: string, value: int, color: string)

  /** A tested model's entries: small then large, each only for a positive time. */
  function ModelChartEntries(name: string, e: ModelEntry): seq<ChartEntry> {
    if !Tested(e) then []
    else
      (if OrZero(e.inferenceTimeMs) > 0 then [ChartEntry(Upper(name) + " (small)", OrZero(e.inferenceTimeMs), ColorFor(name))] else [])
      + (if OrZero(e.inferenceLargeTimeMs) > 0 then [ChartEntry(Upper(name) + " (large)", OrZero(e.inferenceLargeTimeMs), ColorFor(name))] else [])
  }

  function ChartEntries(models: Models): seq<ChartEntry> {
    if models == [] then []
    else ChartEntries(models[..|models| - 1]) + ModelChartEntries(models[|models| - 1].0, models[|models| - 1].1)
  }

  /** The three parallel lists describe the entries position by position. */
  predicate Describes(labels: seq<string>, data: seq<int>, colors: seq<string>, entries: seq<ChartEntry>) {
    && |labels| == |entries| && |data| == |entries| && |colors| == |entries|
    && forall i :: 0 <= i < |entries| ==> entries[i] == ChartEntry(labels[i], data[i], colors[i])
  }

  method AppendEntry(labels: seq<string>, data: seq<int>, colors: seq<string>, ghost entries: seq<ChartEntry>, x: ChartEntry)
    returns (labels': seq<string>, data': seq<int>, colors': seq<string>)
    requires Describes(labels, data, colors, entries)
    ensures Describes(labels', data', colors', entries + [x])
  {
    labels', data', colors' := labels + [x.caption], data + [x.value], colors + [x.color];
  }

  /** One model's pass of the chart loop: its small entry, then its large one. */
  method AppendModel(labels: seq<string>, data: seq<int>, colors: seq<string>, ghost entries: seq<ChartEntry>,
                     name: string, e: ModelEntry)
    returns (labels': seq<string>, data': seq<int>, colors': seq<string>)
    requires Describes(labels, data, colors, entries)
    ensures Describes(labels', data', colors', entries + ModelChartEntries(name, e))
  {
    labels', data', colors' := labels, data, colors;
    ghost var after := entries;
    if Flag(e.tested) {
      var color := ColorFor(name);
      if OrZero(e.inferenceTimeMs) > 0 {
        labels', data', colors' := AppendEntry(labels', data', colors', after, ChartEntry(Upper(name) + " (small)", e.inferenceTimeMs.value, color));
        after := after + [ChartEntry(Upper(name) + " (small)", e.inferenceTimeMs.value, color)];
      }
      if OrZero(e.inferenceLargeTimeMs) > 0 {
        labels', data', colors' := AppendEntry(labels', data', colors', after, ChartEntry(Upper(name) + " (large)", e.inferenceLargeTimeMs.value, color));
        after := after + [ChartEntry(Upper(name) + " (large)", e.inferenceLargeTimeMs.value, color)];
      }
    }
    assert after == entries + ModelChartEntries(name, e);
  }

  /** generate_inference_chart_data. */
  method GenerateInferenceChartData(models: Models) returns (labels: seq<string>, data: seq<int>, colors: seq<string>)
    ensures Describes(labels, data, colors, ChartEntries(models))
  {
    labels, data, colors := [], [], [];
    var i := 0;
    while i < |models|
      invariant 0 <= i <= |models|
      invariant Describes(labels, data, colors, ChartEntries(models[..i]))
    {
      assert models[..i + 1][..i] == models[..i];
      labels, data, colors := AppendModel(labels, data, colors, ChartEntries(models[..i]), models[i].0, models[i].1);
      i := i + 1;
    }
    assert models[..i] == models;
  }

  /**
   * Every chart value is a positive time, every colour is from the colour
   * map or the default, and each tested model adds at most two entries
   * while untested ones add none.
   */
  lemma {:induction false} ChartEntriesProperties(models: Models)
    ensures forall i :: 0 <= i < |ChartEntries(models)| ==> ChartEntries(models)[i].value > 0
    ensures forall i :: 0 <= i < |ChartEntries(models)| ==>
              ChartEntries(models)[i].color in ["#667eea", "#764ba2", "#f093fb", "#11998e", "#38ef7d", DefaultColor]
    ensures |ChartEntries(models)| <= 2 * TestedCount(models)
  {
    if models != [] {
      var init := models[..|models| - 1];
      ChartEntriesProperties(init);
      var (name, e) := models[|models| - 1];
      var extra := ModelChartEntries(name, e);
      assert ColorFor(name) in ["#667eea", "#764ba2", "#f093fb", "#11998e", "#38ef7d", DefaultColor];
      assert forall i :: 0 <= i < |extra| ==> extra[i].value > 0 && extra[i].color == ColorFor(name);
      assert ChartEntries(models) == ChartEntries(init) + extra;
    }
  }

  // ---------------------------------------------------------------- template rendering

  function KeyLengths(replacements: seq<(string, string)>): (r: seq<real>)
    ensures |r| == |replacements|
  {
    seq(|replacements|, i requires 0 <= i < |replacements| => |replacements[i].0| as real)
  }

  /** The replacements sorted by descending key length, equal lengths in their original order. */
  function ReplacementOrder(replacements: seq<(string, string)>): (r: seq<(string, string)>)
    ensures |r| == |replacements|
  {
    var order := Rank(KeyLengths(replacements));
    RankIsSortedPermutation(KeyLengths(replacements));
    seq(|replacements|, i requires 0 <= i < |replacements| => replacements[order[i]])
  }

  /** A key is replaced only when it occurs in the content. */
  function ApplyIfPresent(content: string, key: string, value: string): string {
    if Contains(content, key) then ReplaceAll(content, key, value) else content
  }

  function ApplyAll(content: string, ordered: seq<(string, string)>): string {
    if ordered == [] then content
    else ApplyIfPresent(ApplyAll(content, ordered[..|ordered| - 1]), ordered[|ordered| - 1].0, ordered[|ordered| - 1].1)
  }

  /** The replacement loop of render. */
  method Render(template: string, replacements: seq<(string, string)>) returns (content: string)
    ensures content == ApplyAll(template, ReplacementOrder(replacements))
  {
    var ordered := ReplacementOrder(replacements);
    content := template;
    var i := 0;
    while i < |ordered|
      invariant 0 <= i <= |ordered|
      invariant content == ApplyAll(template, ordered[..i])
    {
      assert ordered[..i + 1][..i] == ordered[..i];
      var (key, value) := ordered[i];
      if Contains(content, key) {
        content := ReplaceAll(content, key, value);
      }
      i := i + 1;
    }
    assert ordered[..i] == ordered;
  }

  /**
   * The order holds every replacement, and nothing else, with key lengths
   * non-increasing, so a longer key is always applied before a shorter one;
   * keys of equal length keep their original order.
   */
  lemma ReplacementOrderProperties(replacements: seq<(string, string)>)
    ensures var r := ReplacementOrder(replacements);
      && (forall i, j :: 0 <= i < j < |r| ==> |r[i].0| >= |r[j].0|)
      && (forall j :: 0 <= j < |replacements| ==> replacements[j] in r)
      && (forall i :: 0 <= i < |r| ==> r[i] in replacements)
    ensures var order := Rank(KeyLengths(replacements));
      && |order| == |replacements|
      && (forall i :: 0 <= i < |order| ==> order[i] < |replacements| && ReplacementOrder(replacements)[i] == replacements[order[i]])
      && (forall i, j :: 0 <= i < j < |order| && |replacements[order[i]].0| == |replacements[order[j]].0| ==> order[i] < order[j])
  {
    var keys := KeyLengths(replacements);
    var order := Rank(keys);
    RankIsSortedPermutation(keys);
    var r := ReplacementOrder(replacements);
    forall i, j | 0 <= i < j < |r|
      ensures |r[i].0| >= |r[j].0|
    {
      assert Before(keys, order[i], order[j]);
    }
    forall i, j | 0 <= i < j < |order| && |replacements[order[i]].0| == |replacements[order[j]].0|
      ensures order[i] < order[j]
    {
      assert Before(keys, order[i], order[j]);
    }
    forall j | 0 <= j < |replacements|
      ensures replacements[j] in r
    {
      assert j in order;
      var k :| 0 <= k < |order| && order[k] == j;
      assert r[k] == replacements[j];
    }
  }

  /** Replacing every key unconditionally, in the same order. */
  function ReplaceEach(content: string, ordered: seq<(string, string)>): string {
    if ordered == [] then content
    else ReplaceAll(ReplaceEach(content, ordered[..|ordered| - 1]), ordered[|ordered| - 1].0, ordered[|ordered| - 1].1)
  }

  /** Skipping the keys that do not occur gives the same text as replacing every key. */
  lemma {:induction false} SkippingAbsentKeysIsInvisible(content: string, ordered: seq<(string, string)>)
    ensures ApplyAll(content, ordered) == ReplaceEach(content, ordered)
  {
    if ordered != [] {
      var init := ordered[..|ordered| - 1];
      SkippingAbsentKeysIsInvisible(content, init);
      var (key, value) := ordered[|ordered| - 1];
      var before := ApplyAll(content, init);
      if !Contains(before, key) {
        ReplaceAbsent(before, key, value);
      }
    }
  }

  // ---------------------------------------------------------------- summary placeholders

  /** `{{TOTAL_INFERENCES}}`: passed and total tests separated by a slash. */
  function TotalInferencesText(models: Models): string {
    var c := OverallCounts(models);
    IntToString(c.passed) + "/" + IntToString(c.total)
  }

  /** `{{MODELS_TESTED}}`: the number of tested models. */
  function ModelsTestedText(models: Models): string {
    IntToString(TestedCount(models))
  }

  lemma {:induction false} DigitsOnly(n: nat)
    ensures forall i :: 0 <= i < |NatToString(n)| ==> '0' <= NatToString(n)[i] <= '9'
    decreases n
  {
    if n >= 10 {
      DigitsOnly(n / 10);
    }
  }

  /** The slash-separated text splits back into the passed and the total count, passed never above total. */
  lemma TotalInferencesParts(models: Models)
    ensures var c := OverallCounts(models);
      Split(TotalInferencesText(models), '/') == [IntToString(c.passed), IntToString(c.total)] && c.passed <= c.total
  {
    var c := OverallCounts(models);
    OverallBounds(models);
    DigitsOnly(c.passed);
    DigitsOnly(c.total);
    SplitAtFirst(IntToString(c.passed), IntToString(c.total), '/');
    SplitWithout(IntToString(c.total), '/');
  }
}
