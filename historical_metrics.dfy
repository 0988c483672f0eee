// The run history of the historical-metrics script: extracting one run's
// figures from an aggregated summary, appending it to the history, and
// collecting per-model values across runs for the statistics. The clock is
// a parameter. Values are exact reals: a statistics record keeps the count,
// the minimum, the maximum and the mean without rounding, and whether the
// standard deviation is the fixed 0 of a single value; median and sample
// standard deviation are not modelled.
module HistoricalMetrics {
  import opened Json
  import opened MetricsFile

  /** The kernel-comparison object of a summary; every key may be missing. */
  datatype KernelIn = KernelIn(
    comparisonEnabled: bool,
    kernelMode: Option<string>,
    averageSpeedup: Option<real>,
    modelsTested: Option<int>,
    speedup: Option<seq<(string, real)>>,
    kernelResults: Option<Obj>,
    userspaceResults: Option<Obj>)

  /** The aggregated summary a run is read from. */
  datatype MetricsIn = MetricsIn(
    generatedAt: Option<string>,
    versions: Option<Obj>,
    totalModels: Option<int>,
    successfulModels: Option<int>,
    successRate: Option<real>,
    models: Models,
    kernelComparison: Option<KernelIn>)

  datatype RunModel = RunModel(installTimeMs: int, registerTimeMs: int, inferenceTimeMs: int, status: string)

  datatype KernelRun = KernelRun(kernelMode: string, averageSpeedup: real, modelsTested: int,
                                 speedup: seq<(string, real)>, kernelResults: Obj, userspaceResults: Obj)

  /** One run of the history; `kernelComparison` is None for the empty object. */
  datatype Run = Run(
    timestamp: string,
    versions: Obj,
    totalModels: int,
    successfulModels: int,
    successRate: real,
    models: seq<(string, RunModel)>,
    kernelComparison: Option<KernelRun>,
    runNumber: Option<int>)

  function RunModelOf(e: ModelEntry): RunModel {
    RunModel(OrZero(e.installTimeMs), OrZero(e.registerTimeMs), OrZero(e.inferenceTimeMs), OrDefault(e.status, "unknown"))
  }

  /** The tested models, in order, with their times (default 0) and status (default "unknown"). */
  function TestedModels(models: Models): seq<(string, RunModel)> {
    if models == [] then []
    else
      var init := TestedModels(models[..|models| - 1]);
      var (name, e) := models[|models| - 1];
      if Flag(e.tested) then init + [(name, RunModelOf(e))] else init
  }

  function RealOr(x: Option<real>, default: real): real {
    if x.Some? then x.value else default
  }

  function KernelRunOf(kc: KernelIn): KernelRun {
    KernelRun(OrDefault(kc.kernelMode, "scheduler"), RealOr(kc.averageSpeedup, 0.0), OrZero(kc.modelsTested),
      if kc.speedup.Some? then kc.speedup.value else [],
      if kc.kernelResults.Some? then kc.kernelResults.value else [],
      if kc.userspaceResults.Some? then kc.userspaceResults.value else [])
  }

  /** extract_run_metrics; `now` is the timestamp used when the summary has none. */
  function ExtractRunMetrics(metrics: MetricsIn, now: string): Run {
    Run(if metrics.generatedAt.Some? then metrics.generatedAt.value else now,
      if metrics.versions.Some? then metrics.versions.value else [],
      OrZero(metrics.totalModels), OrZero(metrics.successfulModels), RealOr(metrics.successRate, 0.0),
      TestedModels(metrics.models),
      if metrics.kernelComparison.Some? && metrics.kernelComparison.value.comparisonEnabled
      then Some(KernelRunOf(metrics.kernelComparison.value)) else None,
      None)
  }

  /**
   * A run keeps exactly the tested models, in order, each with its figures;
   * the kernel comparison is present only when enabled.
   */
  lemma {:induction false} TestedModelsExact(models: Models)
    ensures forall p :: p in TestedModels(models) <==>
              exists i :: 0 <= i < |models| && Flag(models[i].1.tested) && p == (models[i].0, RunModelOf(models[i].1))
    ensures |TestedModels(models)| <= |models|
  {
    if models != [] {
      var init := models[..|models| - 1];
      TestedModelsExact(init);
      assert forall i :: 0 <= i < |init| ==> init[i] == models[i];
    }
  }

  lemma ExtractKernel(metrics: MetricsIn, now: string)
    ensures ExtractRunMetrics(metrics, now).kernelComparison.Some? <==>
              metrics.kernelComparison.Some? && metrics.kernelComparison.value.comparisonEnabled
    ensures ExtractRunMetrics(metrics, now).runNumber.None?
  {
  }

  /** The history file's fields the model covers; `runs` is None until the first run is added. */
  datatype HistoryState = HistoryState(runs: Option<seq<Run>>, createdAt: Option<string>,
                                       updatedAt: Option<string>, totalRuns: Option<int>)

  function RunsOf(h: HistoryState): seq<Run> {
    if h.runs.Some? then h.runs.value else []
  }

  /** add_run without the file reading and writing. */
  function AddRunSpec(h: HistoryState, metrics: MetricsIn, now: string): HistoryState {
    var runs := RunsOf(h);
    var run := ExtractRunMetrics(metrics, now).(runNumber := Some(|runs| + 1));
    HistoryState(Some(runs + [run]), if h.runs.None? then Some(now) else h.createdAt, Some(now), Some(|runs| + 1))
  }

  class History {
    var runs: Option<seq<Run>>
    var createdAt: Option<string>
    var updatedAt: Option<string>
    var totalRuns: Option<int>

    function State(): HistoryState
      reads this
    {
      HistoryState(runs, createdAt, updatedAt, totalRuns)
    }

    /** A history as loaded from its file. */
    constructor (loaded: HistoryState)
      ensures State() == loaded
    {
      runs := loaded.runs;
      createdAt := loaded.createdAt;
      updatedAt := loaded.updatedAt;
      totalRuns := loaded.totalRuns;
    }

    /** add_run: start the run list when missing, append the numbered run, update the stamps and the count. */
    method AddRun(metrics: MetricsIn, now: string)
      modifies this
      ensures State() == AddRunSpec(old(State()), metrics, now)
    {
      if runs.None? {
        runs := Some([]);
        createdAt := Some(now);
      }
      var run := ExtractRunMetrics(metrics, now);
      run := run.(runNumber := Some(|runs.value| + 1));
      runs := Some(runs.value + [run]);
      updatedAt := Some(now);
      totalRuns := Some(|runs.value|);
    }
  }

  /** Runs numbered 1, 2, ... in order, and a count that matches. */
  predicate Numbered(h: HistoryState) {
    && (forall i :: 0 <= i < |RunsOf(h)| ==> RunsOf(h)[i].runNumber == Some(i + 1))
    && (h.runs.Some? ==> h.totalRuns == Some(|RunsOf(h)|))
  }

  /**
   * Adding a run keeps the earlier runs, puts the new one last with number
   * old length + 1, sets the count to the new length, and so keeps a
   * consistently numbered history numbered.
   */
  lemma AddRunProperties(h: HistoryState, metrics: MetricsIn, now: string)
    ensures var h' := AddRunSpec(h, metrics, now);
      && |RunsOf(h')| == |RunsOf(h)| + 1
      && RunsOf(h')[..|RunsOf(h)|] == RunsOf(h)
      && RunsOf(h')[|RunsOf(h)|].runNumber == Some(|RunsOf(h)| + 1)
      && h'.totalRuns == Some(|RunsOf(h')|)
      && (h.runs.Some? ==> h'.createdAt == h.createdAt)
      && (Numbered(h) ==> Numbered(h'))
  {
    var h' := AddRunSpec(h, metrics, now);
    assert forall i :: 0 <= i < |RunsOf(h)| ==> RunsOf(h')[i] == RunsOf(h)[i];
  }

  /** The values collected for one model: only strictly positive ones, in run order. */
  datatype MetricLists = MetricLists(install: seq<real>, register: seq<real>, inference: seq<real>)

  function AppendPositive(xs: seq<real>, v: int): seq<real> {
    if v > 0 then xs + [v as real] else xs
  }

  /** One model of one run: its lists are created when first seen, then each positive value appended. */
  function CollectOne(acc: seq<(string, MetricLists)>, name: string, m: RunModel): seq<(string, MetricLists)> {
    var lists := if HasKey(acc, name) then Find(acc, name).value else MetricLists([], [], []);
    Put(acc, name, MetricLists(AppendPositive(lists.install, m.installTimeMs),
                               AppendPositive(lists.register, m.registerTimeMs),
                               AppendPositive(lists.inference, m.inferenceTimeMs)))
  }

  function CollectRun(acc: seq<(string, MetricLists)>, models: seq<(string, RunModel)>): seq<(string, MetricLists)> {
    if models == [] then acc
    else CollectOne(CollectRun(acc, models[..|models| - 1]), models[|models| - 1].0, models[|models| - 1].1)
  }

  function Collect(runs: seq<Run>): seq<(string, MetricLists)> {
    if runs == [] then [] else CollectRun(Collect(runs[..|runs| - 1]), runs[|runs| - 1].models)
  }

  /** The collection loops of calculate_statistics. */
  method CollectModelMetrics(runs: seq<Run>) returns (collected: seq<(string, MetricLists)>)
    ensures collected == Collect(runs)
  {
    collected := [];
    var i := 0;
    while i < |runs|
      invariant 0 <= i <= |runs|
      invariant collected == Collect(runs[..i])
    {
      assert runs[..i + 1][..i] == runs[..i];
      var models := runs[i].models;
      ghost var start := collected;
      var j := 0;
      while j < |models|
        invariant 0 <= j <= |models|
        invariant collected == CollectRun(start, models[..j])
      {
        assert models[..j + 1][..j] == models[..j];
        collected := CollectEntry(collected, models[j].0, models[j].1);
        j := j + 1;
      }
      assert models[..j] == models;
      i := i + 1;
    }
    assert runs[..i] == runs;
  }

  /** One model of one run, as the inner loop body handles it. */
  method CollectEntry(acc: seq<(string, MetricLists)>, name: string, data: RunModel) returns (r: seq<(string, MetricLists)>)
    ensures r == CollectOne(acc, name, data)
  {
    r := acc;
    if !HasKey(r, name) {
      r := Put(r, name, MetricLists([], [], []));
    }
    var lists := Find(r, name).value;
    r := Put(r, name, MetricLists(AppendPositive(lists.install, data.installTimeMs),
                                  AppendPositive(lists.register, data.registerTimeMs),
                                  AppendPositive(lists.inference, data.inferenceTimeMs)));
    if !HasKey(acc, name) {
      PutOverwrite(acc, name, MetricLists([], [], []), r);
    }
  }

  /** Assigning a key twice leaves the second value in the first one's place. */
  lemma PutOverwrite<V>(m: seq<(string, V)>, k: string, v1: V, r: seq<(string, V)>)
    requires !HasKey(m, k)
    requires exists v2 :: r == Put(Put(m, k, v1), k, v2)
    ensures exists v2 :: r == Put(m, k, v2) && Find(r, k) == Some(v2)
  {
    var v2 :| r == Put(Put(m, k, v1), k, v2);
    PutPlacement(m, k, v1);
    PutAfterAppend(m, k, v1, v2);
    PutPlacement(m, k, v2);
  }

  /** The strictly positive install times of `name` across the runs, in run order. */
  function PositiveInstallTimes(runs: seq<Run>, name: string): seq<real> {
    if runs == [] then []
    else
      var r := runs[|runs| - 1];
      var before := PositiveInstallTimes(runs[..|runs| - 1], name);
      if HasKey(r.models, name) then AppendPositive(before, Find(r.models, name).value.installTimeMs) else before
  }

  /** The models of a run whose entry for `name` is the first. */
  lemma {:induction false} CollectRunEffect(acc: seq<(string, MetricLists)>, models: seq<(string, RunModel)>, name: string)
    requires DistinctKeys(models)
    ensures HasKey(models, name) ==>
      && HasKey(CollectRun(acc, models), name)
      && Find(CollectRun(acc, models), name).value.install ==
           AppendPositive(if HasKey(acc, name) then Find(acc, name).value.install else [],
                          Find(models, name).value.installTimeMs)
    ensures !HasKey(models, name) ==> Find(CollectRun(acc, models), name) == Find(acc, name)
  {
    if models != [] {
      var init := models[..|models| - 1];
      assert DistinctKeys(init);
      CollectRunEffect(acc, init, name);
      var last := models[|models| - 1];
      FindDistinct(models, |models| - 1);
      if last.0 == name {
        assert !HasKey(init, name) by {
          assert forall i :: 0 <= i < |init| ==> init[i].0 == models[i].0 != name;
        }
      } else {
        assert Find(models, name) == Find(init, name) by {
          assert models == init + [last];
          FindSnoc(init, last, name);
        }
      }
    }
  }

  lemma {:induction false} FindSnoc<V>(m: seq<(string, V)>, p: (string, V), k: string)
    requires p.0 != k
    ensures Find(m + [p], k) == Find(m, k)
  {
    if m != [] {
      assert (m + [p])[1..] == m[1..] + [p];
      FindSnoc(m[1..], p, k);
    }
  }

  /**
   * For a model seen in some run, the collected install values are exactly its
   * strictly positive install times, in run order (each run's models being a
   * dict, with distinct names).
   */
  lemma {:induction false} CollectedInstallTimes(runs: seq<Run>, name: string)
    requires forall i :: 0 <= i < |runs| ==> DistinctKeys(runs[i].models)
    ensures HasKey(Collect(runs), name) ==> Find(Collect(runs), name).value.install == PositiveInstallTimes(runs, name)
    ensures !HasKey(Collect(runs), name) ==> PositiveInstallTimes(runs, name) == []
  {
    if runs != [] {
      var init := runs[..|runs| - 1];
      CollectedInstallTimes(init, name);
      CollectRunEffect(Collect(init), runs[|runs| - 1].models, name);
    }
  }

  /** calc_stats: all zeros for no values; count, extremes, and the fixed 0 deviation for one value. */
  datatype Stats = Stats(count: nat, minimum: real, maximum: real, mean: real, stddevIsZero: bool)

  function Min(xs: seq<real>): real
    requires xs != []
  {
    if |xs| == 1 then xs[0]
    else
      var m := Min(xs[..|xs| - 1]);
      if xs[|xs| - 1] < m then xs[|xs| - 1] else m
  }

  function Max(xs: seq<real>): real
    requires xs != []
  {
    if |xs| == 1 then xs[0]
    else
      var m := Max(xs[..|xs| - 1]);
      if xs[|xs| - 1] > m then xs[|xs| - 1] else m
  }

  function Total(xs: seq<real>): real {
    if xs == [] then 0.0 else Total(xs[..|xs| - 1]) + xs[|xs| - 1]
  }

  function CalcStats(values: seq<real>): Stats {
    if values == [] then Stats(0, 0.0, 0.0, 0.0, true)
    else Stats(|values|, Min(values), Max(values), Total(values) / (|values| as real), |values| < 2)
  }

  /** The extremes are values of the list bounding every value. */
  lemma {:induction false} Extremes(xs: seq<real>)
    requires xs != []
    ensures Min(xs) in xs && Max(xs) in xs
    ensures forall i :: 0 <= i < |xs| ==> Min(xs) <= xs[i] <= Max(xs)
  {
    if |xs| > 1 {
      var init := xs[..|xs| - 1];
      Extremes(init);
      assert forall i :: 0 <= i < |init| ==> init[i] == xs[i];
    }
  }

  /** A lower bound of every value, times the count, bounds the total from below. */
  lemma {:induction false} TotalAtLeast(xs: seq<real>, c: real)
    requires forall i :: 0 <= i < |xs| ==> c <= xs[i]
    ensures (|xs| as real) * c <= Total(xs)
  {
    if xs != [] {
      var init := xs[..|xs| - 1];
      TotalAtLeast(init, c);
      assert (|xs| as real) * c == (|init| as real) * c + c;
    }
  }

  /** An upper bound of every value, times the count, bounds the total from above. */
  lemma {:induction false} TotalAtMost(xs: seq<real>, c: real)
    requires forall i :: 0 <= i < |xs| ==> xs[i] <= c
    ensures Total(xs) <= (|xs| as real) * c
  {
    if xs != [] {
      var init := xs[..|xs| - 1];
      TotalAtMost(init, c);
      assert (|xs| as real) * c == (|init| as real) * c + c;
    }
  }

  /**
   * calc_stats on an empty list is all zeros; otherwise the count is the
   * length, the minimum and maximum are the extremes, the mean lies between
   * them, and the deviation is the fixed 0 exactly for a single value.
   */
  lemma CalcStatsProperties(values: seq<real>)
    ensures values == [] ==> CalcStats(values) == Stats(0, 0.0, 0.0, 0.0, true)
    ensures values != [] ==>
      var s := CalcStats(values);
      && s.count == |values|
      && s.minimum in values && s.maximum in values
      && (forall i :: 0 <= i < |values| ==> s.minimum <= values[i] <= s.maximum)
      && s.minimum <= s.mean <= s.maximum
      && (s.stddevIsZero <==> |values| == 1)
  {
    if values != [] {
      Extremes(values);
      TotalAtLeast(values, Min(values));
      TotalAtMost(values, Max(values));
      MeanBetween(Total(values), |values| as real, Min(values), Max(values));
    }
  }

  /** A total between n times a lower and n times an upper bound has its mean between the bounds. */
  lemma MeanBetween(total: real, n: real, lo: real, hi: real)
    requires 0.0 < n && n * lo <= total <= n * hi
    ensures lo <= total / n <= hi
  {
    var m := total / n;
    assert m * n == total;
    assert (m - lo) * n >= 0.0;
    assert (hi - m) * n >= 0.0;
  }

  /** The statistics of one model: a record for each metric that collected at least one value. */
  datatype ModelStats = ModelStats(install: Option<Stats>, register: Option<Stats>, inference: Option<Stats>)

  function StatsIfAny(values: seq<real>): Option<Stats> {
    if |values| >= 1 then Some(CalcStats(values)) else None
  }

  function ModelStatsOf(collected: seq<(string, MetricLists)>): seq<(string, ModelStats)> {
    seq(|collected|, i requires 0 <= i < |collected| =>
      (collected[i].0, ModelStats(StatsIfAny(collected[i].1.install), StatsIfAny(collected[i].1.register),
                                  StatsIfAny(collected[i].1.inference))))
  }

  /** The overall success rates collected: only those above 0, in run order. */
  function PositiveRates(runs: seq<Run>): seq<real> {
    if runs == [] then []
    else
      var r := runs[|runs| - 1].successRate;
      PositiveRates(runs[..|runs| - 1]) + (if r > 0.0 then [r] else [])
  }

  /** The average speedups collected: those of runs with a kernel comparison, when above 0, in run order. */
  function AverageSpeedups(runs: seq<Run>): seq<real> {
    if runs == [] then []
    else
      var kc := runs[|runs| - 1].kernelComparison;
      AverageSpeedups(runs[..|runs| - 1]) + (if kc.Some? && kc.value.averageSpeedup > 0.0 then [kc.value.averageSpeedup] else [])
  }

  /** One model's speedup: a positive one is appended to its list, created on its first positive speedup. */
  function SpeedupOne(acc: seq<(string, seq<real>)>, name: string, v: real): seq<(string, seq<real>)> {
    if v > 0.0 then Put(acc, name, (if HasKey(acc, name) then Find(acc, name).value else []) + [v]) else acc
  }

  function SpeedupRun(acc: seq<(string, seq<real>)>, speedup: seq<(string, real)>): seq<(string, seq<real>)> {
    if speedup == [] then acc
    else SpeedupOne(SpeedupRun(acc, speedup[..|speedup| - 1]), speedup[|speedup| - 1].0, speedup[|speedup| - 1].1)
  }

  function KernelSpeedups(runs: seq<Run>): seq<(string, seq<real>)> {
    if runs == [] then []
    else
      var kc := runs[|runs| - 1].kernelComparison;
      var before := KernelSpeedups(runs[..|runs| - 1]);
      if kc.Some? then SpeedupRun(before, kc.value.speedup) else before
  }

  /** One model's speedup, as the inner loop body handles it. */
  method SpeedupEntry(acc: seq<(string, seq<real>)>, name: string, v: real) returns (r: seq<(string, seq<real>)>)
    ensures r == SpeedupOne(acc, name, v)
  {
    r := acc;
    if v > 0.0 {
      if !HasKey(r, name) {
        r := Put(r, name, []);
      }
      r := Put(r, name, Find(r, name).value + [v]);
      if !HasKey(acc, name) {
        PutOverwrite(acc, name, [], r);
      }
    }
  }

  /** The kernel-comparison collection loop of calculate_statistics. */
  method CollectKernelSpeedups(runs: seq<Run>) returns (averages: seq<real>, perModel: seq<(string, seq<real>)>)
    ensures averages == AverageSpeedups(runs)
    ensures perModel == KernelSpeedups(runs)
  {
    averages := [];
    perModel := [];
    var i := 0;
    while i < |runs|
      invariant 0 <= i <= |runs|
      invariant averages == AverageSpeedups(runs[..i])
      invariant perModel == KernelSpeedups(runs[..i])
    {
      assert runs[..i + 1][..i] == runs[..i];
      var kc := runs[i].kernelComparison;
      if kc.Some? {
        if kc.value.averageSpeedup > 0.0 {
          averages := averages + [kc.value.averageSpeedup];
        }
        var speedup := kc.value.speedup;
        ghost var start := perModel;
        var j := 0;
        while j < |speedup|
          invariant 0 <= j <= |speedup|
          invariant perModel == SpeedupRun(start, speedup[..j])
        {
          assert speedup[..j + 1][..j] == speedup[..j];
          perModel := SpeedupEntry(perModel, speedup[j].0, speedup[j].1);
          j := j + 1;
        }
        assert speedup[..j] == speedup;
      }
      i := i + 1;
    }
    assert runs[..i] == runs;
  }

  /** A list with at least one value, every one of them positive. */
  predicate PositiveList(xs: seq<real>) {
    xs != [] && forall i :: 0 <= i < |xs| ==> xs[i] > 0.0
  }

  ghost predicate AllPositiveLists(acc: seq<(string, seq<real>)>) {
    forall k :: Find(acc, k).Some? ==> PositiveList(Find(acc, k).value)
  }

  lemma {:induction false} SpeedupRunPositive(acc: seq<(string, seq<real>)>, speedup: seq<(string, real)>)
    requires AllPositiveLists(acc)
    ensures AllPositiveLists(SpeedupRun(acc, speedup))
  {
    if speedup != [] {
      var before := SpeedupRun(acc, speedup[..|speedup| - 1]);
      SpeedupRunPositive(acc, speedup[..|speedup| - 1]);
      var (name, v) := speedup[|speedup| - 1];
      if v > 0.0 {
        var old_ := if HasKey(before, name) then Find(before, name).value else [];
        assert PositiveList(old_ + [v]) by {
          assert forall i :: 0 <= i < |old_| ==> (old_ + [v])[i] == old_[i];
        }
      }
    }
  }

  /**
   * Every per-model speedup list is non-empty and holds only positive
   * values, so a statistics record is made for every model collected;
   * every average speedup collected is positive.
   */
  lemma {:induction false} KernelSpeedupsPositive(runs: seq<Run>)
    ensures AllPositiveLists(KernelSpeedups(runs))
    ensures forall j :: 0 <= j < |AverageSpeedups(runs)| ==> AverageSpeedups(runs)[j] > 0.0
    ensures |AverageSpeedups(runs)| <= |runs|
  {
    if runs != [] {
      var init := runs[..|runs| - 1];
      KernelSpeedupsPositive(init);
      var kc := runs[|runs| - 1].kernelComparison;
      if kc.Some? {
        SpeedupRunPositive(KernelSpeedups(init), kc.value.speedup);
      }
    }
  }

  /** The per-model speedup statistics, for the lists that hold a value. */
  function SpeedupStats(perModel: seq<(string, seq<real>)>): seq<(string, Stats)> {
    if perModel == [] then []
    else
      var (name, speedups) := perModel[|perModel| - 1];
      SpeedupStats(perModel[..|perModel| - 1]) + (if speedups != [] then [(name, CalcStats(speedups))] else [])
  }

  datatype Statistics =
    | NoRuns
    | Computed(totalRuns: nat, firstRun: string, lastRun: string, models: seq<(string, ModelStats)>,
               averageSpeedup: Option<Stats>, kernelModels: seq<(string, Stats)>, successRate: Option<Stats>)

  /** calculate_statistics, without its generation timestamp. */
  function StatisticsSpec(runs: seq<Run>): Statistics {
    if runs == [] then NoRuns
    else
      var rates := PositiveRates(runs);
      var averages := AverageSpeedups(runs);
      Computed(|runs|, runs[0].timestamp, runs[|runs| - 1].timestamp, ModelStatsOf(Collect(runs)),
               if averages != [] then Some(CalcStats(averages)) else None,
               SpeedupStats(KernelSpeedups(runs)),
               if rates != [] then Some(CalcStats(rates)) else None)
  }

  method CalculateStatistics(runs: seq<Run>) returns (stats: Statistics)
    ensures stats == StatisticsSpec(runs)
  {
    if runs == [] {
      return NoRuns;
    }
    var collected := CollectModelMetrics(runs);
    var averages, perModel := CollectKernelSpeedups(runs);
    var averageStats: Option<Stats> := None;
    if averages != [] {
      averageStats := Some(CalcStats(averages));
    }
    var rates := PositiveRates(runs);
    var rateStats: Option<Stats> := None;
    if rates != [] {
      rateStats := Some(CalcStats(rates));
    }
    stats := Computed(|runs|, runs[0].timestamp, runs[|runs| - 1].timestamp, ModelStatsOf(collected),
                      averageStats, SpeedupStats(perModel), rateStats);
  }

  /** Every run's overall success rate, in run order. */
  function Rates(runs: seq<Run>): seq<real> {
    seq(|runs|, i requires 0 <= i < |runs| => runs[i].successRate)
  }

  /** Every collected success rate is positive and is some run's rate. */
  lemma {:induction false} PositiveRatesFromRuns(runs: seq<Run>)
    ensures forall j :: 0 <= j < |PositiveRates(runs)| ==> PositiveRates(runs)[j] > 0.0 && PositiveRates(runs)[j] in Rates(runs)
    ensures |PositiveRates(runs)| <= |runs|
  {
    if runs != [] {
      var init := runs[..|runs| - 1];
      PositiveRatesFromRuns(init);
      assert forall i :: 0 <= i < |init| ==> Rates(init)[i] == Rates(runs)[i];
      assert runs[|runs| - 1].successRate == Rates(runs)[|runs| - 1];
    }
  }

  /** An empty history is an error; otherwise the statistics span the first to the last run. */
  lemma StatisticsShape(runs: seq<Run>)
    ensures StatisticsSpec(runs).NoRuns? <==> runs == []
    ensures runs != [] ==>
      && StatisticsSpec(runs).totalRuns == |runs|
      && StatisticsSpec(runs).firstRun == runs[0].timestamp
      && StatisticsSpec(runs).lastRun == runs[|runs| - 1].timestamp
      && (StatisticsSpec(runs).successRate.Some? <==> exists j :: 0 <= j < |runs| && runs[j].successRate > 0.0)
  {
    if runs != [] {
      PositiveRatesNonEmpty(runs);
    }
  }

  lemma {:induction false} PositiveRatesNonEmpty(runs: seq<Run>)
    ensures PositiveRates(runs) != [] <==> exists j :: 0 <= j < |runs| && runs[j].successRate > 0.0
  {
    if runs != [] {
      var init := runs[..|runs| - 1];
      PositiveRatesNonEmpty(init);
      assert forall i :: 0 <= i < |init| ==> init[i] == runs[i];
    }
  }
}
