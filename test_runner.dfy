// Counter and per-model map bookkeeping of the Go test runner. What the
// outside world reports (an install, a path lookup, a registration, an
// inference request and its elapsed time) is given as a parameter, one entry
// per test model in list order.
module TestRunner {
  import opened TestTypes
  import opened Fractions

  /** What one RunInference call reported: no error (ok) or an error, and the milliseconds it took. */
  datatype RunOutcome = RunOutcome(ok: bool, elapsedMs: int)

  function Verdict(o: RunOutcome): string {
    if o.ok then "success" else "failed"
  }

  /** The bookkeeping after one small or large inference run of `name`. */
  function AfterRun(s: MetricsState, name: string, large: bool, o: RunOutcome): MetricsState {
    var s1 := s.(totalInferences := s.totalInferences + 1);
    if !o.ok then
      if large then
        s1.(failedInferences := s.failedInferences + 1,
            largeInferenceStatus := s.largeInferenceStatus[name := "failed"])
      else
        s1.(failedInferences := s.failedInferences + 1,
            inferenceStatus := s.inferenceStatus[name := "failed"])
    else
      if large then
        s1.(successfulInferences := s.successfulInferences + 1,
            largeInferenceTimes := s.largeInferenceTimes[name := o.elapsedMs],
            largeInferenceStatus := s.largeInferenceStatus[name := "success"])
      else
        s1.(successfulInferences := s.successfulInferences + 1,
            inferenceTimes := s.inferenceTimes[name := o.elapsedMs],
            inferenceStatus := s.inferenceStatus[name := "success"])
  }

  /** One model of runInferenceTests: language models get a small then a large run, others are skipped. */
  function AfterModel(s: MetricsState, spec: ModelSpec, runs: (RunOutcome, RunOutcome)): MetricsState {
    if spec.category != "nlp" then s
    else AfterRun(AfterRun(s, spec.name, false, runs.0), spec.name, true, runs.1)
  }

  function AfterInferenceTests(s: MetricsState, models: seq<ModelSpec>, runs: seq<(RunOutcome, RunOutcome)>): MetricsState
    requires |runs| == |models|
  {
    if models == [] then s
    else
      var n := |models| - 1;
      AfterModel(AfterInferenceTests(s, models[..n], runs[..n]), models[n], runs[n])
  }

  function NlpCount(models: seq<ModelSpec>): nat {
    if models == [] then 0
    else NlpCount(models[..|models| - 1]) + (if models[|models| - 1].category == "nlp" then 1 else 0)
  }

  /** One small or large inference run's bookkeeping, done in place. */
  method RecordRun(metrics: Metrics, name: string, large: bool, o: RunOutcome)
    modifies metrics
    ensures metrics.State() == AfterRun(old(metrics.State()), name, large, o)
  {
    metrics.totalInferences := metrics.totalInferences + 1;
    if !o.ok {
      metrics.failedInferences := metrics.failedInferences + 1;
      if large {
        metrics.largeInferenceStatus := metrics.largeInferenceStatus[name := "failed"];
      } else {
        metrics.inferenceStatus := metrics.inferenceStatus[name := "failed"];
      }
    } else {
      metrics.successfulInferences := metrics.successfulInferences + 1;
      if large {
        metrics.largeInferenceTimes := metrics.largeInferenceTimes[name := o.elapsedMs];
        metrics.largeInferenceStatus := metrics.largeInferenceStatus[name := "success"];
      } else {
        metrics.inferenceTimes := metrics.inferenceTimes[name := o.elapsedMs];
        metrics.inferenceStatus := metrics.inferenceStatus[name := "success"];
      }
    }
  }

  /** One model of the loop: a small then a large run for a language model, nothing otherwise. */
  method RunModel(metrics: Metrics, spec: ModelSpec, runs: (RunOutcome, RunOutcome))
    modifies metrics
    ensures metrics.State() == AfterModel(old(metrics.State()), spec, runs)
  {
    if spec.category == "nlp" {
      RecordRun(metrics, spec.name, false, runs.0);
      RecordRun(metrics, spec.name, true, runs.1);
    }
  }

  /** The loop of runInferenceTests over a list of models. */
  method RunModels(metrics: Metrics, models: seq<ModelSpec>, runs: seq<(RunOutcome, RunOutcome)>)
    requires |runs| == |models|
    modifies metrics
    ensures metrics.State() == AfterInferenceTests(old(metrics.State()), models, runs)
  {
    ghost var s0 := metrics.State();
    var i := 0;
    while i < |models|
      invariant 0 <= i <= |models|
      invariant metrics.State() == AfterInferenceTests(s0, models[..i], runs[..i])
    {
      assert models[..i + 1][..i] == models[..i];
      assert runs[..i + 1][..i] == runs[..i];
      RunModel(metrics, models[i], runs[i]);
      i := i + 1;
    }
    assert models[..i] == models && runs[..i] == runs;
  }

  /** runInferenceTests over the test models, updating the metrics object in place. */
  method RunInferenceTests(metrics: Metrics, testAllModels: bool, runs: seq<(RunOutcome, RunOutcome)>)
    requires |runs| == |TestModels(testAllModels)|
    modifies metrics
    ensures metrics.State() == AfterInferenceTests(old(metrics.State()), TestModels(testAllModels), runs)
  {
    RunModels(metrics, TestModels(testAllModels), runs);
  }

  /**
   * Every language model adds exactly two inferences, each run adds exactly
   * one success or one failure, and nothing outside the inference fields changes.
   */
  lemma {:induction false} InferenceCounters(s: MetricsState, models: seq<ModelSpec>, runs: seq<(RunOutcome, RunOutcome)>)
    requires |runs| == |models|
    ensures var t := AfterInferenceTests(s, models, runs);
      && t.totalInferences == s.totalInferences + 2 * NlpCount(models)
      && t.successfulInferences + t.failedInferences - t.totalInferences
         == s.successfulInferences + s.failedInferences - s.totalInferences
      && t.successfulInferences >= s.successfulInferences
      && t.failedInferences >= s.failedInferences
      && t.modelsInstalled == s.modelsInstalled
      && t.registrationTimes == s.registrationTimes
  {
    if models != [] {
      var n := |models| - 1;
      InferenceCounters(s, models[..n], runs[..n]);
      AfterModelCounters(AfterInferenceTests(s, models[..n], runs[..n]), models[n], runs[n]);
    }
  }

  lemma AfterRunCounters(s: MetricsState, name: string, large: bool, o: RunOutcome)
    ensures var t := AfterRun(s, name, large, o);
      && t.totalInferences == s.totalInferences + 1
      && t.successfulInferences == s.successfulInferences + (if o.ok then 1 else 0)
      && t.failedInferences == s.failedInferences + (if o.ok then 0 else 1)
      && t.modelsInstalled == s.modelsInstalled
      && t.registrationTimes == s.registrationTimes
  {
  }

  lemma AfterModelCounters(s: MetricsState, spec: ModelSpec, runs: (RunOutcome, RunOutcome))
    ensures var t := AfterModel(s, spec, runs);
      && t.totalInferences == s.totalInferences + (if spec.category == "nlp" then 2 else 0)
      && t.successfulInferences + t.failedInferences - t.totalInferences
         == s.successfulInferences + s.failedInferences - s.totalInferences
      && t.successfulInferences >= s.successfulInferences
      && t.failedInferences >= s.failedInferences
      && t.modelsInstalled == s.modelsInstalled
      && t.registrationTimes == s.registrationTimes
  {
    if spec.category == "nlp" {
      AfterRunCounters(s, spec.name, false, runs.0);
      AfterRunCounters(AfterRun(s, spec.name, false, runs.0), spec.name, true, runs.1);
    }
  }

  /** Starting from fresh metrics, total = successful + failed after the inference tests. */
  lemma TotalIsSuccessPlusFailure(models: seq<ModelSpec>, runs: seq<(RunOutcome, RunOutcome)>)
    requires |runs| == |models|
    ensures var t := AfterInferenceTests(EmptyMetrics, models, runs);
      t.totalInferences == t.successfulInferences + t.failedInferences == 2 * NlpCount(models)
  {
    InferenceCounters(EmptyMetrics, models, runs);
  }

  predicate DistinctNames(models: seq<ModelSpec>) {
    forall i, j :: 0 <= i < j < |models| ==> models[i].name != models[j].name
  }

  predicate SameAt<V(==)>(m1: map<string, V>, m2: map<string, V>, k: string) {
    (k in m1 <==> k in m2) && (k in m1 ==> m1[k] == m2[k])
  }

  /** The four per-model inference maps agree at name `k`. */
  predicate RunsAgreeAt(s: MetricsState, t: MetricsState, k: string) {
    && SameAt(s.inferenceTimes, t.inferenceTimes, k)
    && SameAt(s.inferenceStatus, t.inferenceStatus, k)
    && SameAt(s.largeInferenceTimes, t.largeInferenceTimes, k)
    && SameAt(s.largeInferenceStatus, t.largeInferenceStatus, k)
  }

  /** What one run does to the maps at one name: only the maps of its own size change, and only at its name. */
  lemma AfterRunAt(s: MetricsState, name: string, large: bool, o: RunOutcome, k: string)
    ensures var t := AfterRun(s, name, large, o);
      && (k != name ==> RunsAgreeAt(s, t, k))
      && (large ==> SameAt(s.inferenceTimes, t.inferenceTimes, k) && SameAt(s.inferenceStatus, t.inferenceStatus, k))
      && (!large ==> SameAt(s.largeInferenceTimes, t.largeInferenceTimes, k)
                     && SameAt(s.largeInferenceStatus, t.largeInferenceStatus, k))
      && (k == name && large ==>
            && k in t.largeInferenceStatus && t.largeInferenceStatus[k] == Verdict(o)
            && (if o.ok then k in t.largeInferenceTimes && t.largeInferenceTimes[k] == o.elapsedMs
                else SameAt(s.largeInferenceTimes, t.largeInferenceTimes, k)))
      && (k == name && !large ==>
            && k in t.inferenceStatus && t.inferenceStatus[k] == Verdict(o)
            && (if o.ok then k in t.inferenceTimes && t.inferenceTimes[k] == o.elapsedMs
                else SameAt(s.inferenceTimes, t.inferenceTimes, k)))
  {
    var t := AfterRun(s, name, large, o);
    if large {
      assert t.inferenceTimes == s.inferenceTimes && t.inferenceStatus == s.inferenceStatus;
    } else {
      assert t.largeInferenceTimes == s.largeInferenceTimes && t.largeInferenceStatus == s.largeInferenceStatus;
    }
  }

  /** What one model's runs do to the maps at one name. */
  lemma AfterModelAt(s: MetricsState, spec: ModelSpec, runs: (RunOutcome, RunOutcome), k: string)
    ensures !(spec.category == "nlp" && k == spec.name) ==> RunsAgreeAt(s, AfterModel(s, spec, runs), k)
    ensures spec.category == "nlp" && k == spec.name ==>
      var t := AfterModel(s, spec, runs);
      && k in t.inferenceStatus && t.inferenceStatus[k] == Verdict(runs.0)
      && k in t.largeInferenceStatus && t.largeInferenceStatus[k] == Verdict(runs.1)
      && (if runs.0.ok then k in t.inferenceTimes && t.inferenceTimes[k] == runs.0.elapsedMs
          else SameAt(s.inferenceTimes, t.inferenceTimes, k))
      && (if runs.1.ok then k in t.largeInferenceTimes && t.largeInferenceTimes[k] == runs.1.elapsedMs
          else SameAt(s.largeInferenceTimes, t.largeInferenceTimes, k))
  {
    if spec.category == "nlp" {
      var u := AfterRun(s, spec.name, false, runs.0);
      AfterRunAt(s, spec.name, false, runs.0, k);
      AfterRunAt(u, spec.name, true, runs.1, k);
    }
  }

  /**
   * With distinct model names, each language model's small and large status
   * is "success" exactly when that run reported no error, and its time is the
   * run's elapsed time when it succeeded.
   */
  lemma {:induction false} InferenceStatusRecorded(s: MetricsState, models: seq<ModelSpec>, runs: seq<(RunOutcome, RunOutcome)>, i: nat)
    requires |runs| == |models| && DistinctNames(models)
    requires i < |models| && models[i].category == "nlp"
    ensures var t := AfterInferenceTests(s, models, runs);
      && models[i].name in t.inferenceStatus && t.inferenceStatus[models[i].name] == Verdict(runs[i].0)
      && models[i].name in t.largeInferenceStatus && t.largeInferenceStatus[models[i].name] == Verdict(runs[i].1)
      && (runs[i].0.ok ==> models[i].name in t.inferenceTimes && t.inferenceTimes[models[i].name] == runs[i].0.elapsedMs)
      && (runs[i].1.ok ==> models[i].name in t.largeInferenceTimes && t.largeInferenceTimes[models[i].name] == runs[i].1.elapsedMs)
  {
    var n := |models| - 1;
    var u := AfterInferenceTests(s, models[..n], runs[..n]);
    AfterModelAt(u, models[n], runs[n], models[i].name);
    if i < n {
      assert models[..n][i] == models[i] && runs[..n][i] == runs[i];
      InferenceStatusRecorded(s, models[..n], runs[..n], i);
    }
  }

  /** A time is recorded only for a model that had a successful run of that size. */
  lemma {:induction false} TimesOnlyOnSuccess(s: MetricsState, models: seq<ModelSpec>, runs: seq<(RunOutcome, RunOutcome)>, k: string)
    requires |runs| == |models|
    ensures var t := AfterInferenceTests(s, models, runs);
      && (k in t.inferenceTimes && k !in s.inferenceTimes ==>
            exists i :: 0 <= i < |models| && models[i].name == k && models[i].category == "nlp" && runs[i].0.ok)
      && (k in t.largeInferenceTimes && k !in s.largeInferenceTimes ==>
            exists i :: 0 <= i < |models| && models[i].name == k && models[i].category == "nlp" && runs[i].1.ok)
  {
    if models != [] {
      var n := |models| - 1;
      TimesOnlyOnSuccess(s, models[..n], runs[..n], k);
      var u := AfterInferenceTests(s, models[..n], runs[..n]);
      AfterModelAt(u, models[n], runs[n], k);
      if k in u.inferenceTimes && k !in s.inferenceTimes {
        var i :| 0 <= i < n && models[..n][i].name == k && models[..n][i].category == "nlp" && runs[..n][i].0.ok;
        assert models[i] == models[..n][i] && runs[i] == runs[..n][i];
      }
      if k in u.largeInferenceTimes && k !in s.largeInferenceTimes {
        var i :| 0 <= i < n && models[..n][i].name == k && models[..n][i].category == "nlp" && runs[..n][i].1.ok;
        assert models[i] == models[..n][i] && runs[i] == runs[..n][i];
      }
    }
  }

  /** What installModels learns about one spec: Install's report, and whether GetPath then resolves. */
  datatype InstallReport = InstallFailed | InstallReturned(installed: bool)
  datatype InstallAttempt = InstallAttempt(report: InstallReport, pathResolves: bool)

  /** A spec is counted when freshly installed, or when Install declined but the path resolves. */
  predicate Counted(a: InstallAttempt) {
    a.report == InstallReturned(true) || (a.report == InstallReturned(false) && a.pathResolves)
  }

  function CountInstalled(attempts: seq<InstallAttempt>): (n: nat)
    ensures n <= |attempts|
  {
    if attempts == [] then 0
    else CountInstalled(attempts[..|attempts| - 1]) + (if Counted(attempts[|attempts| - 1]) then 1 else 0)
  }

  /** installModels: ModelsInstalled grows by the number of counted specs; nothing else changes. */
  method InstallModels(metrics: Metrics, testAllModels: bool, attempts: seq<InstallAttempt>)
    requires |attempts| == |TestModels(testAllModels)|
    modifies metrics
    ensures metrics.State() == old(metrics.State()).(modelsInstalled := old(metrics.modelsInstalled) + CountInstalled(attempts))
  {
    var models := TestModels(testAllModels);
    ghost var s0 := metrics.State();
    var i := 0;
    while i < |models|
      invariant 0 <= i <= |models|
      invariant metrics.State() == s0.(modelsInstalled := s0.modelsInstalled + CountInstalled(attempts[..i]))
    {
      assert attempts[..i + 1][..i] == attempts[..i];
      var a := attempts[i];
      if a.report.InstallReturned? {
        if a.report.installed {
          metrics.modelsInstalled := metrics.modelsInstalled + 1;
        } else if a.pathResolves {
          metrics.modelsInstalled := metrics.modelsInstalled + 1;
        }
      }
      i := i + 1;
    }
    assert attempts[..i] == attempts;
  }

  /** Every spec is counted exactly when each install succeeded or found the model already present. */
  lemma {:induction false} CountInstalledAll(attempts: seq<InstallAttempt>)
    ensures CountInstalled(attempts) == |attempts| <==> forall i :: 0 <= i < |attempts| ==> Counted(attempts[i])
  {
    if attempts != [] {
      var n := |attempts| - 1;
      CountInstalledAll(attempts[..n]);
      assert forall i :: 0 <= i < n ==> attempts[..n][i] == attempts[i];
    }
  }

  /** What registerModels learns about one spec: GetPath resolves, Register succeeds, and the elapsed time. */
  datatype RegisterAttempt = RegisterAttempt(pathResolves: bool, registered: bool, elapsedMs: int)

  function AfterRegistrations(times: map<string, int>, models: seq<ModelSpec>, attempts: seq<RegisterAttempt>): map<string, int>
    requires |attempts| == |models|
  {
    if models == [] then times
    else
      var n := |models| - 1;
      var t := AfterRegistrations(times, models[..n], attempts[..n]);
      if attempts[n].pathResolves && attempts[n].registered then t[models[n].name := attempts[n].elapsedMs] else t
  }

  /** registerModels: only the registration-time map changes. */
  method RegisterModels(metrics: Metrics, testAllModels: bool, attempts: seq<RegisterAttempt>)
    requires |attempts| == |TestModels(testAllModels)|
    modifies metrics
    ensures metrics.State() == old(metrics.State()).(registrationTimes :=
              AfterRegistrations(old(metrics.registrationTimes), TestModels(testAllModels), attempts))
  {
    var models := TestModels(testAllModels);
    ghost var s0 := metrics.State();
    var i := 0;
    while i < |models|
      invariant 0 <= i <= |models|
      invariant metrics.State() == s0.(registrationTimes := AfterRegistrations(s0.registrationTimes, models[..i], attempts[..i]))
    {
      assert models[..i + 1][..i] == models[..i];
      assert attempts[..i + 1][..i] == attempts[..i];
      var a := attempts[i];
      if !a.pathResolves {
      } else if !a.registered {
      } else {
        metrics.registrationTimes := metrics.registrationTimes[models[i].name := a.elapsedMs];
      }
      i := i + 1;
    }
    assert models[..i] == models && attempts[..i] == attempts;
  }

  /** A name gains a registration time exactly when some spec of that name resolved and registered. */
  lemma {:induction false} RegistrationRecorded(times: map<string, int>, models: seq<ModelSpec>, attempts: seq<RegisterAttempt>, k: string)
    requires |attempts| == |models|
    ensures k in AfterRegistrations(times, models, attempts) <==>
      k in times || exists i :: 0 <= i < |models| && models[i].name == k && attempts[i].pathResolves && attempts[i].registered
  {
    if models != [] {
      var n := |models| - 1;
      RegistrationRecorded(times, models[..n], attempts[..n], k);
      assert forall i :: 0 <= i < n ==> models[..n][i] == models[i] && attempts[..n][i] == attempts[i];
    }
  }

  /**
   * calculateSuccessRate as an exact percentage: 0 when nothing ran, otherwise
   * within [0, 100] and 100 exactly when every inference succeeded.
   */
  function SuccessRate(s: MetricsState): (r: real)
    ensures s.totalInferences == 0 ==> r == 0.0
    ensures 0 <= s.successfulInferences <= s.totalInferences ==> 0.0 <= r <= 100.0
    ensures 0 <= s.successfulInferences <= s.totalInferences && s.totalInferences > 0 ==>
              (r == 100.0 <==> s.successfulInferences == s.totalInferences)
  {
    if s.totalInferences == 0 then 0.0
    else
      var q := s.successfulInferences as real / s.totalInferences as real;
      if 0 <= s.successfulInferences <= s.totalInferences then
        DivBounds(s.successfulInferences as real, s.totalInferences as real);
        DivIsOne(s.successfulInferences as real, s.totalInferences as real);
        q * 100.0
      else q * 100.0
  }
}
