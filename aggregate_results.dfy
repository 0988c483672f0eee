// The aggregation of per-model pipeline results into one summary: the
// per-status model counts, the inference counts, the install-time total, the
// last versions seen and one models entry per result. Result files arrive
// already parsed; the hardware and resource placeholders and the generation
// timestamp are constants or clock readings and are not modelled.
module AggregateResults {
  import opened Json
  import opened MetricsFile
  import opened Fractions

  /** One phase of a result file; every key may be missing. */
  datatype Phase = Phase(status: Option<string>, timeMs: Option<int>, error: Option<string>)

  /** One parsed result file. */
  datatype ResultFile = ResultFile(
    modelName: Option<string>,
    status: Option<string>,
    phases: seq<(string, Phase)>,
    axonVersion: Option<string>,
    coreVersion: Option<string>,
    totalTimeMs: Option<int>)

  /** The summary values the model covers. */
  datatype Summary = Summary(
    totalModels: int,
    successfulModels: int,
    partialModels: int,
    failedModels: int,
    totalInferences: int,
    successfulInferences: int,
    models: Models,
    totalTimeMs: int,
    axonVersion: string,
    coreVersion: string,
    totalModelInstallMs: int,
    successRate: real)

  /** Python truthiness of an optional string. */
  predicate Truthy(s: Option<string>) {
    s.Some? && s.value != ""
  }

  const NoPhase := Phase(None, None, None)

  function PhaseOf(r: ResultFile, name: string): Phase {
    if HasKey(r.phases, name) then Find(r.phases, name).value else NoPhase
  }

  function ModelName(r: ResultFile): string {
    OrDefault(r.modelName, "unknown")
  }

  /** The fixed category table; unknown names are "nlp". */
  function CategoryOf(name: string): string {
    if name in {"resnet", "vit", "convnext", "mobilenet", "deit", "efficientnet", "swin"} then "vision"
    else if name == "clip" then "multimodal"
    else "nlp"
  }

  /** The copy of one phase: status defaults to "unknown", time to 0, and an error is kept only when non-empty. */
  function CopyPhase(p: Phase): PhaseCopy {
    PhaseCopy(OrDefault(p.status, "unknown"), OrZero(p.timeMs), if Truthy(p.error) then p.error else None)
  }

  function CopyPairs(phases: seq<(string, Phase)>): seq<(string, PhaseCopy)> {
    seq(|phases|, i requires 0 <= i < |phases| => (phases[i].0, CopyPhase(phases[i].1)))
  }

  /** The inner loop: each phase copied into the new phases object. */
  method CopyPhases(phases: seq<(string, Phase)>) returns (copied: seq<(string, PhaseCopy)>)
    ensures copied == PutAll([], CopyPairs(phases))
  {
    copied := [];
    var i := 0;
    while i < |phases|
      invariant 0 <= i <= |phases|
      invariant copied == PutAll([], CopyPairs(phases)[..i])
    {
      assert CopyPairs(phases)[..i + 1][..i] == CopyPairs(phases)[..i];
      var (name, phase) := phases[i];
      var status := OrDefault(phase.status, "unknown");
      var timeMs := OrZero(phase.timeMs);
      var error: Option<string> := None;
      if phase.error.Some? && phase.error.value != "" {
        error := phase.error;
      }
      copied := Put(copied, name, PhaseCopy(status, timeMs, error));
      i := i + 1;
    }
    assert CopyPairs(phases)[..i] == CopyPairs(phases);
  }

  /** The models entry of one result. */
  function ModelSummary(r: ResultFile): ModelEntry {
    var install := PhaseOf(r, "install");
    var small := PhaseOf(r, "inference_small");
    var large := PhaseOf(r, "inference_large");
    ModelEntry(
      Some(CategoryOf(ModelName(r))),
      Some(install.status == Some("success")),
      Some(OrZero(install.timeMs)),
      Some(OrZero(PhaseOf(r, "register").timeMs)),
      Some(OrZero(small.timeMs)),
      Some(OrDefault(small.status, "not_tested")),
      Some(OrZero(large.timeMs)),
      Some(OrDefault(large.status, "not_tested")),
      Some(large.status.Some?),
      Some(OrDefault(r.status, "unknown")),
      Some(PutAll([], CopyPairs(r.phases))),
      Some(OrZero(r.totalTimeMs)))
  }

  /** How a result's overall status is counted. */
  datatype Outcome = Successful | Partial | Failed

  function OutcomeOf(r: ResultFile): Outcome {
    var s := OrDefault(r.status, "unknown");
    if s == "success" then Successful else if s == "partial" then Partial else Failed
  }

  function CountOutcome(results: seq<ResultFile>, o: Outcome): nat {
    if results == [] then 0
    else CountOutcome(results[..|results| - 1], o) + (if OutcomeOf(results[|results| - 1]) == o then 1 else 0)
  }

  /** The inferences a result counts: a phase whose status is present and non-empty. */
  function InferencesOf(r: ResultFile): nat {
    (if Truthy(PhaseOf(r, "inference_small").status) then 1 else 0)
    + (if Truthy(PhaseOf(r, "inference_large").status) then 1 else 0)
  }

  /** Of those, the ones whose status is "success". */
  function SuccessfulInferencesOf(r: ResultFile): nat {
    (if PhaseOf(r, "inference_small").status == Some("success") then 1 else 0)
    + (if PhaseOf(r, "inference_large").status == Some("success") then 1 else 0)
  }

  function TotalInferences(results: seq<ResultFile>): nat {
    if results == [] then 0 else TotalInferences(results[..|results| - 1]) + InferencesOf(results[|results| - 1])
  }

  function TotalSuccessfulInferences(results: seq<ResultFile>): nat {
    if results == [] then 0
    else TotalSuccessfulInferences(results[..|results| - 1]) + SuccessfulInferencesOf(results[|results| - 1])
  }

  function InstallTimes(results: seq<ResultFile>): int {
    if results == [] then 0
    else InstallTimes(results[..|results| - 1]) + OrZero(PhaseOf(results[|results| - 1], "install").timeMs)
  }

  function TotalTimes(results: seq<ResultFile>): int {
    if results == [] then 0 else TotalTimes(results[..|results| - 1]) + OrZero(results[|results| - 1].totalTimeMs)
  }

  /** The last non-empty version among the results, else the placeholder. */
  function LastVersion(versions: seq<Option<string>>, placeholder: string): string {
    if versions == [] then placeholder
    else if Truthy(versions[|versions| - 1]) then versions[|versions| - 1].value
    else LastVersion(versions[..|versions| - 1], placeholder)
  }

  function AxonVersions(results: seq<ResultFile>): seq<Option<string>> {
    seq(|results|, i requires 0 <= i < |results| => results[i].axonVersion)
  }

  function CoreVersions(results: seq<ResultFile>): seq<Option<string>> {
    seq(|results|, i requires 0 <= i < |results| => results[i].coreVersion)
  }

  function ModelPairs(results: seq<ResultFile>): Models {
    seq(|results|, i requires 0 <= i < |results| => (ModelName(results[i]), ModelSummary(results[i])))
  }

  /** The success rate in percent, unrounded; 0 without results. */
  function SuccessRate(successful: int, total: int): real {
    if total > 0 then (successful as real) / (total as real) * 100.0 else 0.0
  }

  function AggregateSpec(results: seq<ResultFile>): Summary {
    Summary(|results|,
      CountOutcome(results, Successful), CountOutcome(results, Partial), CountOutcome(results, Failed),
      TotalInferences(results), TotalSuccessfulInferences(results),
      PutAll([], ModelPairs(results)), TotalTimes(results),
      LastVersion(AxonVersions(results), "v3.1.1"), LastVersion(CoreVersions(results), "3.2.5-alpha"),
      InstallTimes(results),
      SuccessRate(CountOutcome(results, Successful), |results|))
  }

  /** The status counters of one result. */
  method CountStatus(r: ResultFile, successful: int, partial: int, failed: int)
    returns (successful': int, partial': int, failed': int)
    ensures successful' == successful + (if OutcomeOf(r) == Successful then 1 else 0)
    ensures partial' == partial + (if OutcomeOf(r) == Partial then 1 else 0)
    ensures failed' == failed + (if OutcomeOf(r) == Failed then 1 else 0)
  {
    successful', partial', failed' := successful, partial, failed;
    var status := OrDefault(r.status, "unknown");
    if status == "success" {
      successful' := successful' + 1;
    } else if status == "partial" {
      partial' := partial' + 1;
    } else {
      failed' := failed' + 1;
    }
  }

  /** The inference counters of one result. */
  method CountInferences(r: ResultFile, total: int, successful: int) returns (total': int, successful': int)
    ensures total' == total + InferencesOf(r)
    ensures successful' == successful + SuccessfulInferencesOf(r)
  {
    total', successful' := total, successful;
    var small := PhaseOf(r, "inference_small");
    var large := PhaseOf(r, "inference_large");
    if small.status.Some? && small.status.value != "" {
      total' := total' + 1;
      if small.status.value == "success" {
        successful' := successful' + 1;
      }
    }
    if large.status.Some? && large.status.value != "" {
      total' := total' + 1;
      if large.status.value == "success" {
        successful' := successful' + 1;
      }
    }
  }

  /** The models entry of one result, its phases copied by the inner loop. */
  method BuildModelSummary(r: ResultFile) returns (entry: ModelEntry)
    ensures entry == ModelSummary(r)
  {
    var phases := CopyPhases(r.phases);
    entry := ModelSummary(r).(phases := Some(phases));
  }

  /** The values the loop accumulates over the results seen so far. */
  datatype Tallies = Tallies(
    successful: int, partial: int, failed: int,
    totalInferences: int, successfulInferences: int,
    installTime: int, totalTime: int,
    axonVersion: string, coreVersion: string,
    models: Models)

  const NoTallies := Tallies(0, 0, 0, 0, 0, 0, 0, "v3.1.1", "3.2.5-alpha", [])

  /** The accumulated values over a list of results, each defined over the whole list. */
  function TalliesOf(results: seq<ResultFile>): Tallies {
    Tallies(
      CountOutcome(results, Successful), CountOutcome(results, Partial), CountOutcome(results, Failed),
      TotalInferences(results), TotalSuccessfulInferences(results),
      InstallTimes(results), TotalTimes(results),
      LastVersion(AxonVersions(results), "v3.1.1"), LastVersion(CoreVersions(results), "3.2.5-alpha"),
      PutAll([], ModelPairs(results)))
  }

  /** What one more result adds: one outcome counter, its inferences and times, a non-empty version, its models entry. */
  function AddResult(t: Tallies, r: ResultFile): Tallies {
    Tallies(
      t.successful + (if OutcomeOf(r) == Successful then 1 else 0),
      t.partial + (if OutcomeOf(r) == Partial then 1 else 0),
      t.failed + (if OutcomeOf(r) == Failed then 1 else 0),
      t.totalInferences + InferencesOf(r),
      t.successfulInferences + SuccessfulInferencesOf(r),
      t.installTime + OrZero(PhaseOf(r, "install").timeMs),
      t.totalTime + OrZero(r.totalTimeMs),
      if Truthy(r.axonVersion) then r.axonVersion.value else t.axonVersion,
      if Truthy(r.coreVersion) then r.coreVersion.value else t.coreVersion,
      Put(t.models, ModelName(r), ModelSummary(r)))
  }

  /** The accumulated values over a longer prefix are those of the shorter one with the next result added. */
  lemma AggregateStep(results: seq<ResultFile>, i: nat)
    requires i < |results|
    ensures TalliesOf(results[..i + 1]) == AddResult(TalliesOf(results[..i]), results[i])
  {
    assert results[..i + 1][..i] == results[..i];
    assert AxonVersions(results[..i + 1])[..i] == AxonVersions(results[..i]);
    assert CoreVersions(results[..i + 1])[..i] == CoreVersions(results[..i]);
    assert ModelPairs(results[..i + 1])[..i] == ModelPairs(results[..i]);
  }

  /** The body of the loop over the results. */
  method AddOne(t: Tallies, r: ResultFile) returns (t': Tallies)
    ensures t' == AddResult(t, r)
  {
    var successful, partial, failed := CountStatus(r, t.successful, t.partial, t.failed);
    var axonVersion, coreVersion := t.axonVersion, t.coreVersion;
    if r.axonVersion.Some? && r.axonVersion.value != "" {
      axonVersion := r.axonVersion.value;
    }
    if r.coreVersion.Some? && r.coreVersion.value != "" {
      coreVersion := r.coreVersion.value;
    }
    var installTime := t.installTime + OrZero(PhaseOf(r, "install").timeMs);
    var totalInferences, successfulInferences := CountInferences(r, t.totalInferences, t.successfulInferences);
    var entry := BuildModelSummary(r);
    var models := Put(t.models, ModelName(r), entry);
    var totalTime := t.totalTime + OrZero(r.totalTimeMs);
    t' := Tallies(successful, partial, failed, totalInferences, successfulInferences,
                  installTime, totalTime, axonVersion, coreVersion, models);
  }

  /** aggregate_results: one pass over the results, updating the counters and the models object. */
  method Aggregate(results: seq<ResultFile>) returns (summary: Summary)
    ensures summary == AggregateSpec(results)
  {
    var t := NoTallies;
    var i := 0;
    assert TalliesOf(results[..0]) == NoTallies;
    while i < |results|
      invariant 0 <= i <= |results|
      invariant t == TalliesOf(results[..i])
    {
      AggregateStep(results, i);
      t := AddOne(t, results[i]);
      i := i + 1;
    }
    assert results[..i] == results;
    var successRate := 0.0;
    if |results| > 0 {
      successRate := (t.successful as real) / (|results| as real) * 100.0;
    }
    summary := Summary(|results|, t.successful, t.partial, t.failed, t.totalInferences, t.successfulInferences,
      t.models, t.totalTime, t.axonVersion, t.coreVersion, t.installTime, successRate);
  }

  /**
   * Every result is counted under exactly one status, so the three counts add
   * up to the number of results; and no more inferences succeed than are counted.
   */
  lemma {:induction false} CountsPartition(results: seq<ResultFile>)
    ensures CountOutcome(results, Successful) + CountOutcome(results, Partial) + CountOutcome(results, Failed) == |results|
    ensures TotalSuccessfulInferences(results) <= TotalInferences(results) <= 2 * |results|
  {
    if results != [] {
      CountsPartition(results[..|results| - 1]);
    }
  }

  /** The success rate is 0 without results and otherwise a percentage, 100 exactly when every result succeeded. */
  lemma SuccessRateBounds(successful: nat, total: nat)
    requires successful <= total
    ensures total == 0 ==> SuccessRate(successful, total) == 0.0
    ensures 0.0 <= SuccessRate(successful, total) <= 100.0
    ensures SuccessRate(successful, total) == 100.0 <==> total > 0 && successful == total
  {
    if total > 0 {
      DivBounds(successful as real, total as real);
      DivIsOne(successful as real, total as real);
    }
  }

  /**
   * A model's entry: tested exactly when the install phase succeeded; the
   * category from the table; a large inference "tested" whenever its status
   * is present, even when empty and so not counted; statuses default to
   * "not_tested" and times to 0.
   */
  lemma ModelSummaryProperties(r: ResultFile)
    ensures var e := ModelSummary(r);
      && e.tested == Some(PhaseOf(r, "install").status == Some("success"))
      && e.category == Some(CategoryOf(ModelName(r)))
      && e.inferenceLargeTested == Some(PhaseOf(r, "inference_large").status.Some?)
      && (PhaseOf(r, "inference_large").status == Some("") ==>
            e.inferenceLargeTested == Some(true) && InferencesOf(r) == (if Truthy(PhaseOf(r, "inference_small").status) then 1 else 0))
      && (PhaseOf(r, "inference_small").status.None? ==> e.inferenceStatus == Some("not_tested"))
      && (!HasKey(r.phases, "install") ==> e.installTimeMs == Some(0) && e.tested == Some(false))
  {
  }

  /** Each copied phase holds the last phase of that name, with the error only when non-empty. */
  lemma CopiedPhases(phases: seq<(string, Phase)>, name: string)
    ensures var c := Find(PutAll([], CopyPairs(phases)), name);
      && (c.Some? <==> LastValue(phases, name).Some?)
      && (c.Some? ==> c.value == CopyPhase(LastValue(phases, name).value))
      && (c.Some? ==> (c.value.error.Some? <==> Truthy(LastValue(phases, name).value.error)))
  {
    PutAllFind([], CopyPairs(phases), name);
    LastValueMapped(phases, name);
  }

  lemma {:induction false} LastValueMapped(phases: seq<(string, Phase)>, name: string)
    ensures LastValue(CopyPairs(phases), name) ==
              if LastValue(phases, name).Some? then Some(CopyPhase(LastValue(phases, name).value)) else None
  {
    if phases != [] {
      assert CopyPairs(phases)[..|phases| - 1] == CopyPairs(phases[..|phases| - 1]);
      LastValueMapped(phases[..|phases| - 1], name);
    }
  }

  /**
   * Two results with one model name both count toward the totals, but the
   * models object keeps only the later one's entry.
   */
  lemma LaterResultWins(results: seq<ResultFile>, name: string)
    ensures HasKey(PutAll([], ModelPairs(results)), name) <==>
              exists i :: 0 <= i < |results| && ModelName(results[i]) == name
    ensures LastValue(ModelPairs(results), name).Some? ==>
              Find(PutAll([], ModelPairs(results)), name) == LastValue(ModelPairs(results), name)
  {
    PutAllFind([], ModelPairs(results), name);
    LastValueExists(ModelPairs(results), name);
    assert forall i :: 0 <= i < |results| ==> ModelPairs(results)[i].0 == ModelName(results[i]);
  }

  lemma {:induction false} LastValueExists<V>(kvs: seq<(string, V)>, k: string)
    ensures LastValue(kvs, k).Some? <==> exists i :: 0 <= i < |kvs| && kvs[i].0 == k
  {
    if kvs != [] {
      LastValueExists(kvs[..|kvs| - 1], k);
      assert forall i :: 0 <= i < |kvs| - 1 ==> kvs[..|kvs| - 1][i] == kvs[i];
    }
  }

  /** The version is the last non-empty one reported, else the placeholder. */
  lemma {:induction false} LastVersionFound(versions: seq<Option<string>>, placeholder: string)
    ensures (exists i :: 0 <= i < |versions| && Truthy(versions[i])) ==>
      exists i :: 0 <= i < |versions| && Truthy(versions[i]) && LastVersion(versions, placeholder) == versions[i].value
        && forall j :: i < j < |versions| ==> !Truthy(versions[j])
    ensures (forall i :: 0 <= i < |versions| ==> !Truthy(versions[i])) ==> LastVersion(versions, placeholder) == placeholder
  {
    if versions != [] {
      var init := versions[..|versions| - 1];
      LastVersionFound(init, placeholder);
      assert forall i :: 0 <= i < |init| ==> init[i] == versions[i];
      if !Truthy(versions[|versions| - 1]) && exists i :: 0 <= i < |versions| && Truthy(versions[i]) {
        var k :| 0 <= k < |versions| && Truthy(versions[k]);
        assert k < |init|;
      }
    }
  }
}
