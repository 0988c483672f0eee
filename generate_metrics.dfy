// The bookkeeping of the log-to-metrics script: each kind of log line found
// (an install, a registration, a small or large inference, a failure)
// updates its model's entry in order, the totals are summed, the categories
// are then overridden by name, and the output keeps exactly the four default
// models. The regular-expression scanning itself is not modelled: its
// results are given as lists of (name, time) matches in log order.
module GenerateMetrics {
  import opened Json
  import opened Text
  import opened MetricsFile

  /** One regular-expression match: the captured model name and its time in milliseconds. */
  datatype LogMatch = LogMatch(name: string, timeMs: int)

  /** The five per-match loops of the parser, in the order it runs them. */
  datatype MatchKind = Install | Register | SmallInference | LargeInference | Failure

  /** The category given to a model first seen in a match: "vision" for a failure, else "nlp". */
  function DefaultCategory(kind: MatchKind): string {
    if kind == Failure then "vision" else "nlp"
  }

  /** The fields one match sets. */
  function Record(kind: MatchKind, e: ModelEntry, t: int): ModelEntry {
    match kind
    case Install => e.(installTimeMs := Some(t))
    case Register => e.(registerTimeMs := Some(t))
    case SmallInference => e.(inferenceTimeMs := Some(t), inferenceStatus := Some("success"), tested := Some(true))
    case LargeInference =>
      e.(inferenceLargeTimeMs := Some(t), inferenceLargeStatus := Some("success"), inferenceLargeTested := Some(true))
    case Failure => e.(inferenceStatus := Some("failed"), tested := Some(true))
  }

  /**
   * One match: the lower-cased name gets a fresh entry with the default
   * category if it has none, then the match's fields are set.
   */
  function Step(models: Models, kind: MatchKind, m: LogMatch): Models {
    var name := Lower(m.name);
    var base := if HasKey(models, name) then Find(models, name).value else CategoryOnly(DefaultCategory(kind));
    Put(models, name, Record(kind, base, m.timeMs))
  }

  function ApplyAll(models: Models, kind: MatchKind, ms: seq<LogMatch>): Models {
    if ms == [] then models else Step(ApplyAll(models, kind, ms[..|ms| - 1]), kind, ms[|ms| - 1])
  }

  function SumTimes(ms: seq<LogMatch>): int {
    if ms == [] then 0 else SumTimes(ms[..|ms| - 1]) + ms[|ms| - 1].timeMs
  }

  /** The timing key a loop's running total is stored under; large inferences and failures keep none. */
  function TotalKey(kind: MatchKind): Option<string> {
    match kind
    case Install => Some("total_model_install_ms")
    case Register => Some("total_register_ms")
    case SmallInference => Some("total_inference_ms")
    case _ => None
  }

  /** The final category depends on the name alone. */
  function CategoryFor(name: string): string {
    if name == "resnet" || name == "vgg" || name == "vit" then "vision"
    else if name == "clip" || name == "wav2vec" then "multimodal"
    else "nlp"
  }

  function Recategorised(p: (string, ModelEntry)): (string, ModelEntry) {
    (p.0, p.1.(category := Some(CategoryFor(p.0))))
  }

  function WithCategories(models: Models): Models {
    seq(|models|, i requires 0 <= i < |models| => Recategorised(models[i]))
  }

  /** What the regular-expression searches found; `completed` is the "Completed x/y inference tests" pair. */
  datatype LogScan = LogScan(
    axonDownloadMs: Option<int>,
    coreDownloadMs: Option<int>,
    coreStartupMs: Option<int>,
    totalDurationS: Option<int>,
    installs: seq<LogMatch>,
    registers: seq<LogMatch>,
    smallInferences: seq<LogMatch>,
    largeInferences: seq<LogMatch>,
    failures: seq<LogMatch>,
    completed: Option<(int, int)>)

  /** The parser's result: the models object, the timings and the two inference counts when found. */
  datatype Parsed = Parsed(models: Models, timings: map<string, int>,
                           successfulInferences: Option<int>, totalInferences: Option<int>)

  function SetIfFound(timings: map<string, int>, key: string, v: Option<int>): map<string, int> {
    if v.Some? then timings[key := v.value] else timings
  }

  /** The four timings read by single searches, each set only when found. */
  function HeaderTimings(s: LogScan): map<string, int> {
    var t := SetIfFound(map[], "axon_download_ms", s.axonDownloadMs);
    var t := SetIfFound(t, "core_download_ms", s.coreDownloadMs);
    var t := SetIfFound(t, "core_startup_ms", s.coreStartupMs);
    SetIfFound(t, "total_duration_s", s.totalDurationS)
  }

  /** One per-match loop: the models updated by its matches, and its running total stored when it keeps one. */
  function RunLoop(p: Parsed, kind: MatchKind, ms: seq<LogMatch>): Parsed {
    p.(models := ApplyAll(p.models, kind, ms),
       timings := if TotalKey(kind).Some? then p.timings[TotalKey(kind).value := SumTimes(ms)] else p.timings)
  }

  /** The five loops in the parser's order. */
  function AllLoops(p: Parsed, s: LogScan): Parsed {
    var p := RunLoop(p, Install, s.installs);
    var p := RunLoop(p, Register, s.registers);
    var p := RunLoop(p, SmallInference, s.smallInferences);
    var p := RunLoop(p, LargeInference, s.largeInferences);
    RunLoop(p, Failure, s.failures)
  }

  /** The "Completed x/y" counts, when that line was found. */
  function WithCompleted(p: Parsed, completed: Option<(int, int)>): Parsed {
    if completed.Some? then p.(successfulInferences := Some(completed.value.0), totalInferences := Some(completed.value.1))
    else p
  }

  /** parse_test_log over the scan results; a missing log file gives empty models and timings. */
  function ParseSpec(scan: Option<LogScan>): Parsed {
    if scan.None? then Parsed([], map[], None, None)
    else
      var p := WithCompleted(AllLoops(Parsed([], HeaderTimings(scan.value), None, None), scan.value), scan.value.completed);
      p.(models := WithCategories(p.models))
  }

  /** The metrics dictionary the parser fills in place. */
  class LogMetrics {
    var models: Models
    var timings: map<string, int>
    var successfulInferences: Option<int>
    var totalInferences: Option<int>

    function Snapshot(): Parsed
      reads this
    {
      Parsed(models, timings, successfulInferences, totalInferences)
    }

    constructor ()
      ensures Snapshot() == Parsed([], map[], None, None)
    {
      models := [];
      timings := map[];
      successfulInferences := None;
      totalInferences := None;
    }

    /** One of the parser's per-match loops, with its running total when it keeps one. */
    method ApplyMatches(kind: MatchKind, ms: seq<LogMatch>)
      modifies this
      ensures Snapshot() == RunLoop(old(Snapshot()), kind, ms)
    {
      ghost var before := Snapshot();
      var updated := models;
      var total := 0;
      var i := 0;
      while i < |ms|
        invariant 0 <= i <= |ms|
        invariant updated == ApplyAll(before.models, kind, ms[..i])
        invariant total == SumTimes(ms[..i])
        invariant Snapshot() == before
      {
        assert ms[..i + 1][..i] == ms[..i];
        total := total + ms[i].timeMs;
        updated := RecordMatch(updated, kind, ms[i]);
        i := i + 1;
      }
      assert ms[..i] == ms;
      models := updated;
      if TotalKey(kind).Some? {
        timings := timings[TotalKey(kind).value := total];
      }
    }

    /** The closing loop: every model's category is set from its name. */
    method SetCategories()
      modifies this
      ensures Snapshot() == old(Snapshot()).(models := WithCategories(old(models)))
    {
      var i := 0;
      while i < |models|
        invariant 0 <= i <= |models| == |old(models)|
        invariant forall j :: 0 <= j < i ==> models[j] == Recategorised(old(models)[j])
        invariant forall j :: i <= j < |models| ==> models[j] == old(models)[j]
        invariant timings == old(timings)
        invariant successfulInferences == old(successfulInferences) && totalInferences == old(totalInferences)
      {
        models := models[i := Recategorised(models[i])];
        i := i + 1;
      }
    }
  }

  /** The body of a per-match loop: create the entry when missing, then set the match's fields. */
  method RecordMatch(models: Models, kind: MatchKind, m: LogMatch) returns (r: Models)
    ensures r == Step(models, kind, m)
  {
    var name := Lower(m.name);
    r := models;
    if !HasKey(r, name) {
      r := Put(r, name, CategoryOnly(DefaultCategory(kind)));
      PutTwice(models, name, CategoryOnly(DefaultCategory(kind)), Record(kind, CategoryOnly(DefaultCategory(kind)), m.timeMs));
    }
    var entry := Find(r, name).value;
    r := Put(r, name, Record(kind, entry, m.timeMs));
  }

  /** Adding a new key and then assigning it again is the same as adding it with the second value. */
  lemma PutTwice(m: Models, k: string, v1: ModelEntry, v2: ModelEntry)
    requires !HasKey(m, k)
    ensures Put(Put(m, k, v1), k, v2) == Put(m, k, v2)
  {
    PutPlacement(m, k, v1);
    PutPlacement(m, k, v2);
    var m1 := m + [(k, v1)];
    assert m1[..|m|] == m;
    PutAfterAppend(m, k, v1, v2);
  }

  /** parse_test_log: the search results, then the five loops in order, then the category override. */
  method ParseTestLog(scan: Option<LogScan>) returns (metrics: LogMetrics)
    ensures fresh(metrics)
    ensures metrics.Snapshot() == ParseSpec(scan)
  {
    metrics := new LogMetrics();
    if scan.None? {
      return;
    }
    var s := scan.value;
    metrics.timings := HeaderTimings(s);
    ghost var p := metrics.Snapshot();
    assert p == Parsed([], HeaderTimings(s), None, None);
    metrics.ApplyMatches(Install, s.installs);
    metrics.ApplyMatches(Register, s.registers);
    metrics.ApplyMatches(SmallInference, s.smallInferences);
    metrics.ApplyMatches(LargeInference, s.largeInferences);
    metrics.ApplyMatches(Failure, s.failures);
    assert metrics.Snapshot() == AllLoops(p, s);
    if s.completed.Some? {
      metrics.successfulInferences := Some(s.completed.value.0);
      metrics.totalInferences := Some(s.completed.value.1);
    }
    assert metrics.Snapshot() == WithCompleted(AllLoops(p, s), s.completed);
    metrics.SetCategories();
  }

  /** The time field a kind of match sets. */
  function TimeField(kind: MatchKind, e: ModelEntry): Option<int> {
    match kind
    case Install => e.installTimeMs
    case Register => e.registerTimeMs
    case SmallInference => e.inferenceTimeMs
    case LargeInference => e.inferenceLargeTimeMs
    case Failure => None
  }

  /** The flags a kind of match sets. */
  predicate Marked(kind: MatchKind, e: ModelEntry) {
    match kind
    case SmallInference => e.inferenceStatus == Some("success") && e.tested == Some(true)
    case LargeInference => e.inferenceLargeStatus == Some("success") && e.inferenceLargeTested == Some(true)
    case Failure => e.inferenceStatus == Some("failed") && e.tested == Some(true)
    case _ => true
  }

  /** The time of the last match for `name` (names compared lower-cased), if any. */
  function LastTime(ms: seq<LogMatch>, name: string): Option<int> {
    if ms == [] then None
    else if Lower(ms[|ms| - 1].name) == name then Some(ms[|ms| - 1].timeMs)
    else LastTime(ms[..|ms| - 1], name)
  }

  /**
   * After a loop, a model it matched has an entry whose time is that of its
   * last match (the last match wins) and carries the loop's flags; a model it
   * did not match keeps its entry, or its absence.
   */
  lemma {:induction false} ApplyAllEffect(models: Models, kind: MatchKind, ms: seq<LogMatch>, name: string)
    ensures var r := ApplyAll(models, kind, ms);
      && (LastTime(ms, name).Some? ==>
            && HasKey(r, name)
            && (kind != Failure ==> TimeField(kind, Find(r, name).value) == LastTime(ms, name))
            && Marked(kind, Find(r, name).value))
      && (LastTime(ms, name).None? ==> Find(r, name) == Find(models, name))
  {
    if ms != [] {
      ApplyAllEffect(models, kind, ms[..|ms| - 1], name);
    }
  }

  /** The small and large fields of an entry, and everything else. */
  function OtherThanLarge(e: ModelEntry): ModelEntry {
    e.(inferenceLargeTimeMs := None, inferenceLargeStatus := None, inferenceLargeTested := None)
  }

  /** A large-inference match changes only the large-inference fields of an existing entry. */
  lemma {:induction false} LargeKeepsOthers(models: Models, ms: seq<LogMatch>, name: string)
    requires HasKey(models, name)
    ensures HasKey(ApplyAll(models, LargeInference, ms), name)
    ensures OtherThanLarge(Find(ApplyAll(models, LargeInference, ms), name).value) == OtherThanLarge(Find(models, name).value)
  {
    if ms != [] {
      LargeKeepsOthers(models, ms[..|ms| - 1], name);
    }
  }

  /**
   * In the parser's result every category comes from the name, and a model
   * matched by a failure line is "failed" and tested even when a success line
   * matched it too; install, register and small-inference times are those of
   * their last match, and the totals are the sums of all matches.
   */
  lemma ParsedProperties(s: LogScan, name: string)
    ensures var p := ParseSpec(Some(s));
      && (forall i :: 0 <= i < |p.models| ==> p.models[i].1.category == Some(CategoryFor(p.models[i].0)))
      && (LastTime(s.failures, name).Some? ==>
            HasKey(p.models, name) && Find(p.models, name).value.inferenceStatus == Some("failed")
            && Find(p.models, name).value.tested == Some(true))
      && p.timings["total_model_install_ms"] == SumTimes(s.installs)
      && p.timings["total_register_ms"] == SumTimes(s.registers)
      && p.timings["total_inference_ms"] == SumTimes(s.smallInferences)
  {
    var p1 := RunLoop(Parsed([], HeaderTimings(s), None, None), Install, s.installs);
    var p2 := RunLoop(p1, Register, s.registers);
    var p3 := RunLoop(p2, SmallInference, s.smallInferences);
    var p4 := RunLoop(p3, LargeInference, s.largeInferences);
    var p5 := RunLoop(p4, Failure, s.failures);
    assert p5.timings == p3.timings;
    var p := WithCompleted(p5, s.completed);
    assert p.models == p5.models && p.timings == p5.timings;
    ApplyAllEffect(p4.models, Failure, s.failures, name);
    CategoriesKeepStatus(p5.models, name);
  }

  /** Overriding categories keeps every key and every other field. */
  lemma {:induction false} CategoriesKeepStatus(models: Models, name: string)
    ensures Find(WithCategories(models), name).Some? <==> Find(models, name).Some?
    ensures Find(models, name).Some? ==>
      Find(WithCategories(models), name).value == Find(models, name).value.(category := Some(CategoryFor(name)))
  {
    if models != [] {
      var r := WithCategories(models);
      assert r[1..] == WithCategories(models[1..]);
      CategoriesKeepStatus(models[1..], name);
    }
  }

  /** The models the output always holds, with their default categories. */
  const DefaultModels := [("gpt2", "nlp"), ("bert", "nlp"), ("roberta", "nlp"), ("resnet", "vision")]

  /** The output entry of one default model: each field from the parsed entry, or its default. */
  function MergedEntry(parsed: Models, name: string, defaultCategory: string): ModelEntry {
    var d := if HasKey(parsed, name) then Find(parsed, name).value
             else ModelEntry(None, None, None, None, None, None, None, None, None, None, None, None);
    ModelEntry(
      Some(OrDefault(d.category, defaultCategory)),
      Some(d.tested == Some(true)),
      Some(OrZero(d.installTimeMs)),
      Some(OrZero(d.registerTimeMs)),
      Some(OrZero(d.inferenceTimeMs)),
      Some(OrDefault(d.inferenceStatus, "unknown")),
      Some(OrZero(d.inferenceLargeTimeMs)),
      Some(OrDefault(d.inferenceLargeStatus, "unknown")),
      Some(d.inferenceLargeTested == Some(true)),
      None, None, None)
  }

  function MergedModels(parsed: Models): Models {
    seq(|DefaultModels|, i requires 0 <= i < |DefaultModels| =>
      (DefaultModels[i].0, MergedEntry(parsed, DefaultModels[i].0, DefaultModels[i].1)))
  }

  /** The merge loop of the script's main. */
  method MergeDefaultModels(parsed: Models) returns (models: Models)
    ensures models == MergedModels(parsed)
  {
    models := [];
    var i := 0;
    while i < |DefaultModels|
      invariant 0 <= i <= |DefaultModels|
      invariant models == MergedModels(parsed)[..i]
    {
      var (name, category) := DefaultModels[i];
      models := Put(models, name, MergedEntry(parsed, name, category));
      assert models == MergedModels(parsed)[..i + 1] by {
        var prefix := MergedModels(parsed)[..i];
        assert forall j :: 0 <= j < i ==> prefix[j].0 == DefaultModels[j].0 != name;
        assert !HasKey(prefix, name);
        PutPlacement(prefix, name, MergedEntry(parsed, name, category));
      }
      i := i + 1;
    }
  }

  /**
   * The output holds exactly the four default models, in order; every field
   * is present, taken from the parsed entry when it has it and defaulting to
   * false, 0, "unknown" or the default category otherwise.
   */
  lemma MergedModelsProperties(parsed: Models, i: nat)
    requires i < 4
    ensures Keys(MergedModels(parsed)) == ["gpt2", "bert", "roberta", "resnet"]
    ensures var name := DefaultModels[i].0;
      var e := MergedModels(parsed)[i].1;
      && e.category.Some? && e.tested.Some? && e.installTimeMs.Some? && e.registerTimeMs.Some?
      && e.inferenceTimeMs.Some? && e.inferenceStatus.Some? && e.inferenceLargeTimeMs.Some?
      && e.inferenceLargeStatus.Some? && e.inferenceLargeTested.Some?
      && (!HasKey(parsed, name) ==>
            && e.category == Some(DefaultModels[i].1) && e.tested == Some(false)
            && e.installTimeMs == Some(0) && e.inferenceStatus == Some("unknown"))
      && (HasKey(parsed, name) && Find(parsed, name).value.installTimeMs.Some? ==>
            e.installTimeMs == Find(parsed, name).value.installTimeMs)
      && (HasKey(parsed, name) && Find(parsed, name).value.inferenceStatus.Some? ==>
            e.inferenceStatus == Find(parsed, name).value.inferenceStatus)
  {
    var r := MergedModels(parsed);
    assert Keys(r) == [r[0].0, r[1].0, r[2].0, r[3].0];
  }
}
