# mlOS system-test: a verified model of its validation and bookkeeping rules

This project models, in Dafny, the decision logic of the mlOS release
system test. That test installs models through Axon, registers them with
MLOS Core, runs inferences, checks the outputs against golden data and
writes reports.

The main part is the golden-data validation engine of
`scripts/validate-inference.py`. It covers:

- routing a response to the tensor, metadata-only or raw path;
- the two dispatch tables over `validation_type`;
- every structural check;
- the stable top-K ranking;
- the tensor-shape walk.

Around it are the bookkeeping rules of the other scripts and of the Go
test runner:

- the report's status, count and chart rules (`report/render.py`,
  `internal/report`);
- result aggregation and the historical metrics;
- the log-metrics update loops;
- the Go runner's counters;
- the token-input builders;
- model-spec, path and asset-selection rules;
- configuration validation and the bash variables emitted from the model
  configuration.

Each source file becomes one module. Shared modules hold what those files
rely on:

- `Json`: Python-like JSON values, with `dict.get`, truthiness, indexing and
  comparisons;
- `Text`: ASCII case mapping, split and join, integer formatting;
- `GoPath`: `filepath.Clean` and `filepath.Join`;
- `Ranking`: the stable descending sort.

Python dicts are association lists in insertion order. Python exceptions
are values of an `Exc` type, so the catch-all handlers are explicit
branches. Code that mutates state is modelled as methods with loops, or as
classes whose methods update fields. Each of them is proved equal to a
specification function, and the properties are proved about that function.

In the places below, the code does less or more than its comments and
docstrings suggest, and the model follows the code:

- The comment at `scripts/validate-inference.py:148` speaks only of tensor
  outputs, but the tensor path runs only when the response has a Core
  metadata key *and* an `outputs` mapping (line 150). An `outputs`
  mapping alone goes to the raw dispatch, which knows nine kinds, not the
  twelve of the tensor path (`Engine.OutputsAloneAreRaw`).
- The metadata-only path ignores `validation_type`. It checks only the
  status and `output_size > 0` (lines 192-200 list just those two).
- `validate` can raise. It does so when a test case is not a mapping, when
  its `expected` is not a mapping, and when the metadata-only check formats
  a non-numeric size. Those calls sit outside the try blocks, so the model
  returns `Err` there.
- An unknown model and a model without test cases each give a single failed
  "lookup" result; `validate` does not raise for them.

## Model

| member | source | states |
|---|---|---|
| TensorShape.GetTensorShape | scripts/validate-inference.py:964-975 | the loop computes Shape: the length of each list met while following element 0 |
| TensorShape.ShapeBounds | scripts/validate-inference.py:964-975 | a scalar has shape [], [] has shape [0], and every dimension but the last is at least 1 |
| TensorShape.ShapeOfTensor | scripts/validate-inference.py:964-975 | a regular tensor's shape is its dimension list, cut just after the first zero dimension |
| Validators.Lookup | scripts/validate-inference.py:351-354 | a string output name is looked up in the mapping; a list or dict name raises TypeError |
| Validators.OutputShapeVerdict | scripts/validate-inference.py:349-380 | output_shape fails, listing the available names, when the output is absent; otherwise it passes iff the shape equals expected_shape element for element |
| Validators.MultiShapeLoop | scripts/validate-inference.py:382-409 | the loop over configured outputs computes MultiShape, the running all_passed flag and details |
| Validators.MultiShapeVerdict | scripts/validate-inference.py:382-409 | with mapping configurations, multi_output_shape passes iff every configured output is present and shape-equal |
| Validators.MultiShapeKeys | scripts/validate-inference.py:382-409 | the details hold an entry exactly for each configured output name |
| Validators.TopPositionsInRange | scripts/validate-inference.py:438-441 | every ranked top-K index is a position of the score list |
| Validators.TopPositionsOfNumbers | scripts/validate-inference.py:438-441 | on numeric scores, the top-K positions are the first K of the stable descending ranking |
| Ranking.RankIsSortedPermutation | scripts/validate-inference.py:438-441 | the ranking is a permutation of the positions, sorted by descending score, ties in ascending position order |
| Ranking.TopKProperties | scripts/validate-inference.py:438-441 | top-K has min(K, n) distinct, sorted indices, and each beats every index left out |
| Validators.TopKContainsVerdict | scripts/validate-inference.py:411-466 | on numeric scores, top_k_contains passes iff some expected index is in the top K, and always passes when the configured indices are absent or falsy |
| Validators.TopKLogitsVerdict | scripts/validate-inference.py:468-512 | on [batch, seq, vocab] numeric scores, the row at position (the last for a negative one) is ranked; the check passes iff some expected token is in its top-K, and found_tokens are the expected tokens in that top-K |
| Validators.TopKLogitsEdges | scripts/validate-inference.py:484-501 | a position past the sequence raises IndexError, and with no expected tokens the check fails |
| Validators.FirstPresent | scripts/validate-inference.py:521-524 | the chosen text is the value of the first present key of the five text keys; None iff none is present |
| Validators.CollectKeywords | scripts/validate-inference.py:540-545 | the keyword loop computes FoundKeywords, including the exception a non-string keyword raises |
| Validators.FoundKeywordsExactly | scripts/validate-inference.py:540-547 | with string keywords, found_keywords is exactly the occurring keywords, in configured order |
| Validators.Occurring | scripts/validate-inference.py:540-545 | reference definition: holds the keywords that occur, and every occurring keyword |
| Validators.GenerationContainsVerdict | scripts/validate-inference.py:514-558 | fails when no text key is present; otherwise passes iff some keyword is a substring, lower-casing both sides unless case_insensitive is falsy |
| Validators.NormWithinMeaning | scripts/validate-inference.py:560-596 | the square-based tolerance test is exactly abs(norm - expected) <= tolerance |
| Validators.CosineAtLeastMeaning | scripts/validate-inference.py:881-962 | the square-based similarity test is exactly dot >= m * (norm a * norm b) |
| Validators.OutputExistsVerdict | scripts/validate-inference.py:631-664 | with a numeric minimum, output_exists passes iff the output is present with at least that many elements |
| Validators.StatusSuccessVerdict | scripts/validate-inference.py:666-705 | status_success fails when status is not "success", and fails when min_output_size > 0 and output_size is below it; otherwise it passes |
| Validators.CoreResponseVerdict | scripts/validate-inference.py:192-248 | metadata validation fails on a non-success status and iff output_size <= 0 (missing counts as 0); the expected mapping never affects it |
| Validators.PositionOf | scripts/validate-inference.py:773-777 | `index()`: the first top-K position equal to the class, None when it is absent |
| Validators.FirstAcceptable | scripts/validate-inference.py:766-777 | the first acceptable class, in list order, that is in the top-K, with its 1-based rank |
| Validators.ClassMatchOutcomeRank | scripts/validate-inference.py:765-800 | passes iff some class of [expected] + alternatives is in the top-K; reports the first such class and its 1-based rank |
| Validators.TopKClassMatchVerdict | scripts/validate-inference.py:707-764 | fails without expected_class_index, and fails on a non-list output |
| Validators.TopKClassMatchReachesOutcome | scripts/validate-inference.py:707-800 | past those failures, the verdict and details are those of the ranked top-K outcome |
| Validators.MaskLogitsRows | scripts/validate-inference.py:841-852 | the ranked logits are the mask-position row of [batch, seq, vocab], the single item of [batch, vocab], and the mask-position row of [seq, vocab] or its last row past the end |
| Validators.MlmPredictionVerdict | scripts/validate-inference.py:819-879 | at a valid mask position of [batch, seq, vocab] numeric logits, the check passes iff some expected token id is in the top-K of that row, and found_tokens are the expected ids in that top-K |
| Validators.MlmPredictionEdges | scripts/validate-inference.py:802-879 | a mask position past the sequence raises IndexError, and an empty output fails |
| Validators.EmbeddingsCompatibleVerdict | scripts/validate-inference.py:598-629 | with an output absent, the check fails naming exactly the absent outputs, text before image; otherwise it passes iff the two shapes are equal, reporting both |
| Validators.EmbeddingSimilarityStructure | scripts/validate-inference.py:881-962 | a missing reference, a non-list side and a dimension mismatch each fail without raising |
| Engine.KindOf | scripts/validate-inference.py:263-336 | only a string validation_type selects a known kind |
| Engine.AnnotatedDetailsRecords | scripts/validate-inference.py:264-330 | the tensor path records inference_time_us and validation_source, records model_id only for output_shape, and leaves every other detail unchanged |
| Engine.TensorValidationAnnotates | scripts/validate-inference.py:250-347 | a known kind's tensor-path result is its validator's result, annotated |
| Engine.SingleValidationRouting | scripts/validate-inference.py:142-190 | the raw path never raises, and treats the three tensor-only kinds as unknown; a raising raw check gives a failed result; the metadata path is the core-response check |
| Engine.OutputsAloneAreRaw | scripts/validate-inference.py:150-159 | an `outputs` mapping without any Core metadata key is routed to the raw dispatch |
| Engine.RunAll | scripts/validate-inference.py:116-124 | the loop over test cases computes RunTests |
| Engine.Validate | scripts/validate-inference.py:88-124 | validate computes ValidateSpec: the lookups, then the loop |
| Engine.RunTestsMatchesChosen | scripts/validate-inference.py:116-124 | one result per chosen test case, in declared order, each that case's single validation; no filter chooses every case |
| Engine.RunStepShape | scripts/validate-inference.py:117-122 | a selected case appends exactly its result; a skipped case leaves the list unchanged |
| Engine.RunTestsErrorStays | scripts/validate-inference.py:116-124 | an exception raised by one test case ends validate: no later case changes the outcome |
| Engine.ValidateLookupFailures | scripts/validate-inference.py:100-114 | an unknown model gives the single model_lookup failure; a model without test cases gives the single test_cases_lookup failure |
| ReportRender.CalculateOverallStatus | report/render.py:58-83 | the loop over models computes OverallSpec |
| ReportRender.OverallBounds | report/render.py:64-74 | passed <= total, and each tested model adds one or two tests |
| ReportRender.StatusClassOnCounts | report/render.py:76-82 | "success" iff all tests passed (and some ran), "warning" iff at least half passed, "failed" otherwise; the rate lies in [0, 100] and is 0 when nothing ran |
| ReportRender.CalculateCategoryStatus | report/render.py:85-117 | the loop computes the badge of the category's tested and passed counts |
| ReportRender.CategoryCountsMeaning | report/render.py:91-108 | passed <= total; total is 0 iff no tested model is in the category; passed == total iff every such model succeeded |
| ReportRender.CategoryStatusMeaning | report/render.py:91-117 | ready_not_tested iff nothing in the category was tested, success iff something was and all passed, failed iff some tested model failed |
| ReportRender.GetModelStatus | report/render.py:119-136 | absent or untested gives ready_not_tested; the large keys apply only to test type 'large'; success iff that status is "success" |
| ReportRender.ModelStatusAgreesWithOverall | report/render.py:119-136 | for a tested model, the small status is success iff its inference succeeded, as the overall count sees it |
| ReportRender.GenerateInferenceChartData | report/render.py:157-191 | the three lists describe ChartEntries: equal length, one entry per positive small time and then per positive large time, in model order |
| ReportRender.ChartEntriesProperties | report/render.py:173-185 | every value is positive, colours come from the table or #888888, and there are at most two entries per tested model |
| ReportRender.Render | report/render.py:421-425 | the replacement loop computes ApplyAll over ReplacementOrder |
| ReportRender.ReplacementOrderProperties | report/render.py:421-425 | the order is by non-increasing key length, holds the same replacements, and is stable for equal lengths |
| ReportRender.SkippingAbsentKeysIsInvisible | report/render.py:423-425 | skipping keys absent from the content gives the same text as replacing every key |
| ReportRender.TotalInferencesParts | report/render.py:326-327 | {{TOTAL_INFERENCES}} splits on "/" into the passed and total counts, with passed <= total |
| ReportRender.DigitsOnly | report/render.py:326-327 | the formatted counts are digits only, so the "/" split is unambiguous |
| AggregateResults.Aggregate | scripts/aggregate-results.py:40-200 | the loop over result files computes AggregateSpec |
| AggregateResults.AggregateStep | scripts/aggregate-results.py:110-183 | one result moves exactly one outcome counter, the inference totals, the install and total times, the versions and the models entry |
| AggregateResults.CountStatus | scripts/aggregate-results.py:115-121 | exactly one of successful, partial and failed grows by one |
| AggregateResults.CountInferences | scripts/aggregate-results.py:147-155 | a truthy phase status counts an inference; only "success" counts a successful one |
| AggregateResults.BuildModelSummary | scripts/aggregate-results.py:129-182 | builds the per-model entry of ModelSummary |
| AggregateResults.CountsPartition | scripts/aggregate-results.py:115-155 | successful + partial + failed == number of results, and successful inferences <= total inferences <= 2 per result |
| AggregateResults.SuccessRateBounds | scripts/aggregate-results.py:193-198 | the success rate is 0 with no results, lies in [0, 100], and is 100 iff every result succeeded |
| AggregateResults.ModelSummaryProperties | scripts/aggregate-results.py:157-168 | tested iff the install status is "success"; category from the table, default nlp; inference_large_tested uses `is not None`, so an empty status is tested but not counted |
| AggregateResults.CopyPhases | scripts/aggregate-results.py:173-179 | the phase-copy loop computes the dict of copied phases |
| AggregateResults.CopiedPhases | scripts/aggregate-results.py:173-179 | each phase is copied from its last occurrence, with error present iff it is truthy |
| AggregateResults.LaterResultWins | scripts/aggregate-results.py:182 | a name has a models entry iff some result has it, and a later result overwrites an earlier one |
| AggregateResults.LastVersionFound | scripts/aggregate-results.py:124-127 | the version is the last truthy value seen, or the placeholder when there is none |
| GenerateMetrics.LogMetrics.ApplyMatches | scripts/generate-metrics.py:215-270 | a match loop updates the models by ApplyAll and sets its running total, leaving the counters unchanged |
| GenerateMetrics.LogMetrics.SetCategories | scripts/generate-metrics.py:279-287 | the override loop replaces every category by the name-based one and changes nothing else |
| GenerateMetrics.RecordMatch | scripts/generate-metrics.py:217-223 | one match creates the entry when absent, then sets its field |
| GenerateMetrics.LogMetrics.constructor | scripts/generate-metrics.py:163-166 | parsing starts with no models, no timings and no inference totals |
| GenerateMetrics.ParseTestLog | scripts/generate-metrics.py:161-289 | the parse result equals ParseSpec of the abstract match lists |
| GenerateMetrics.ApplyAllEffect | scripts/generate-metrics.py:215-270 | the last match of a name sets its time and marks it; an unmatched name is untouched |
| GenerateMetrics.LargeKeepsOthers | scripts/generate-metrics.py:253-261 | large-inference matches change only the inference_large fields |
| GenerateMetrics.ParsedProperties | scripts/generate-metrics.py:215-289 | categories depend only on the name; a failed model ends "failed" and tested; the three totals are sums of install, register and small-inference times |
| GenerateMetrics.CategoriesKeepStatus | scripts/generate-metrics.py:279-287 | the override keeps every key and every field but the category |
| GenerateMetrics.MergeDefaultModels | scripts/generate-metrics.py:339-351 | the merge loop computes MergedModels |
| GenerateMetrics.MergedModelsProperties | scripts/generate-metrics.py:332-351 | the output holds exactly the four default models, every field defaulted, parsed values kept |
| HistoricalMetrics.TestedModelsExact | scripts/historical-metrics.py:58-65 | exactly the models with truthy `tested` are copied, with their defaulted fields |
| HistoricalMetrics.ExtractKernel | scripts/historical-metrics.py:67-77 | kernel_comparison is present iff comparison_enabled is truthy; a fresh run has no run number |
| HistoricalMetrics.History.constructor | scripts/historical-metrics.py:84-85 | the history holds exactly the state loaded from its file |
| HistoricalMetrics.History.AddRun | scripts/historical-metrics.py:82-103 | appending a run updates the history to AddRunSpec |
| HistoricalMetrics.AddRunProperties | scripts/historical-metrics.py:87-96 | the new run is appended last with run_number = old length + 1, earlier runs are kept, total_runs is the new length, and numbering is preserved |
| HistoricalMetrics.CollectModelMetrics | scripts/historical-metrics.py:126-138 | the nested loops compute Collect |
| HistoricalMetrics.CollectedInstallTimes | scripts/historical-metrics.py:126-138 | a model's collected install times are its strictly positive install times, in run order |
| HistoricalMetrics.CollectRunEffect | scripts/historical-metrics.py:126-138 | one run's pass touches only the lists of the models it contains, appending their positive values |
| HistoricalMetrics.CalcStatsProperties | scripts/historical-metrics.py:180-198 | an empty list gives zeros; otherwise count is the length, min and max are the extremes, min <= mean <= max, and stddev takes the fixed 0 branch iff there is one value (the sample stdev of several values is left out) |
| HistoricalMetrics.Extremes | scripts/historical-metrics.py:188-189 | the minimum and maximum are members of the list and bound every element |
| HistoricalMetrics.CollectKernelSpeedups | scripts/historical-metrics.py:148-161 | the speedup loops compute the averages and per-model lists |
| HistoricalMetrics.KernelSpeedupsPositive | scripts/historical-metrics.py:148-161 | only positive speedups are collected, and at most one average per run |
| HistoricalMetrics.CalculateStatistics | scripts/historical-metrics.py:106-177 | calculate_statistics computes StatisticsSpec |
| HistoricalMetrics.StatisticsShape | scripts/historical-metrics.py:106-177 | empty history gives the error result; otherwise total, first and last run are right, and success-rate stats exist iff some rate is positive |
| HistoricalMetrics.PositiveRatesFromRuns | scripts/historical-metrics.py:173-175 | the collected success rates are positive run rates, at most one per run |
| HistoricalMetrics.PositiveRatesNonEmpty | scripts/historical-metrics.py:173-175 | overall success-rate statistics exist iff some run has a positive success rate |
| GenerateTestInput.NlpFallbackKeys | scripts/generate-test-input.py:82-110 | keys are distinct, and each of the four inputs is present iff it is required |
| GenerateTestInput.NlpFallbackIds | scripts/generate-test-input.py:88-98 | with token_type_ids, the ids are 101, 7592s, 102, of length L or 2 when L < 2; otherwise 15496 then 2746s |
| GenerateTestInput.NlpFallbackOthers | scripts/generate-test-input.py:100-108 | the mask is L ones, the token types L zeros, and the decoder ids the start token (default 0) then zeros |
| GenerateTestInput.ClipFallbackTextProperties | scripts/generate-test-input.py:186-195 | the CLIP ids are 49406, 320s, 49407, and the mask is L ones; both have length L when L >= 2 |
| GenerateTestInput.MultimodalDispatch | scripts/generate-test-input.py:143-153 | "clip", the default, gives the CLIP input, "audio" the audio input, and any other type the empty input |
| DiscoverOutputNames.NlpInputLengths | scripts/discover-output-names.py:34-70 | gpt2 ids have length max_len when max_len >= 6, the bert family's lists all have length max_len, and an unknown model gets [101, 7592, 102] |
| DiscoverOutputNames.T5Input | scripts/discover-output-names.py:62-67 | the t5 mask is 9 ones then zeros, every list has length max_len, and the decoder starts at 0 |
| DiscoverOutputNames.ClipInputLengths | scripts/discover-output-names.py:124-131 | the fixed CLIP lists have 77 entries, from 49406 to 49407 |
| DiscoverOutputNames.GetTensorShape | scripts/discover-output-names.py:101-108 | the loop computes DiscoveryShape |
| DiscoverOutputNames.DiscoveryShapeProperties | scripts/discover-output-names.py:101-108 | every recorded dimension is >= 1; it is the validator's shape without a trailing 0 |
| DiscoverOutputNames.DiscoverModelOutputs | scripts/discover-output-names.py:111-161 | the result is filled step by step to DiscoverySpec |
| DiscoverOutputNames.DiscoveryStatus | scripts/discover-output-names.py:140-161 | error iff an error key is present, then inference_failed iff status is not success, then success iff outputs is present; the time is recorded only on the success and no_outputs paths |
| DiscoverOutputNames.OutputShapeKeys | scripts/discover-output-names.py:151-155 | one shape per output name |
| DiscoverOutputNames.OutputShapeValues | scripts/discover-output-names.py:151-155 | each recorded shape is that of the output's tensor, with dimensions >= 1 |
| LoadConfig.EnabledNamesExact | scripts/load-config.py:53-55 | a name is listed iff some entry of that name is enabled (a missing flag is false); no more names than entries |
| LoadConfig.EnabledNamesInOrder | scripts/load-config.py:53-55 | names keep mapping order: a prefix of the mapping gives a prefix of the list |
| LoadConfig.GetModelInfo | scripts/load-config.py:58-63 | None iff the name is absent; otherwise the stored entry |
| LoadConfig.OutputBashVars | scripts/load-config.py:66-100 | the lines printed are BashLines: the header, then each enabled model's block as the script writes it, its size lines following the raw input_type |
| LoadConfig.BashLinesProperties | scripts/load-config.py:73-79 | CONFIG_MODEL_COUNT is the number of enabled models; CONFIG_ENABLED_MODELS splits back into the enabled names when they hold no space; each enabled model gets a block |
| LoadConfig.BlocksCover | scripts/load-config.py:82-100 | every listed model that has an entry gets a block of at least four lines, for either block form |
| LoadConfig.BlockSizes | scripts/load-config.py:85-100 | each block holds at least the axon id, category and input type lines and the closing blank line |
| LoadConfig.BlocksIntendedCompared | scripts/load-config.py:85-100 | the corrected blocks are two lines longer per model without input_type and equal to the printed blocks when every model states its type |
| LoadConfig.BashLinesIntendedCompared | scripts/load-config.py:66-100 | the corrected output keeps the header, gains two token lines per enabled model without input_type, and equals the printed output when every enabled model states its type |
| LoadConfig.ModelBlockMatchesDeclaredType | scripts/load-config.py:82-100 | the block's size lines match the declared input type: two token lines for text, four size lines for image, none otherwise |
| LoadConfig.MissingInputTypeLosesTokens | scripts/load-config.py:87-94 | without input_type, the block as written declares "text" but has no token lines |
| Text.JoinSplit | scripts/load-config.py:77 | joining names that hold no separator, then splitting, gives the names back |
| ReportGenerator.TestModelDisplayNames | internal/report/generator.go:256-270 | each test model has a table display name, and no two share one |
| ReportGenerator.DisplayNameFallback | internal/report/generator.go:256-270 | a name missing from the table displays upper-cased |
| ReportGenerator.FormatHardwareSpecsKeys | internal/report/generator.go:178-202 | nil maps to nil; only the present keys are renamed; the GPU value loses a leading "Chipset Model: " |
| ReportGenerator.TallyModels | internal/report/generator.go:278-288 | the counting loop computes TallyOf |
| ReportGenerator.TallyCounts | internal/report/generator.go:278-288 | per category, the tally counts all its models, those with a status, and those with "success"; passed <= tested <= total |
| ReportGenerator.TallyKeys | internal/report/generator.go:273-275 | the three categories are always tallied, even with no models |
| ReportGenerator.CategoryBadgeClass | internal/report/generator.go:298-314 | ready iff nothing was tested, success iff all tested passed, failed otherwise |
| ReportGenerator.CategoryStatuses | internal/report/generator.go:272-330 | the statuses map holds the three categories' badges |
| ReportGenerator.BuildTemplateChart | internal/report/generator.go:64-129 | the chart loop computes TemplateChart, and the totals are the sums of the listed times |
| ReportGenerator.TemplateChartShape | internal/report/generator.go:64-129 | the three lists have equal length, every time is positive, and each colour is the small or large colour |
| ReportGenerator.PrepareTemplateData | internal/report/generator.go:51-176 | the template data equals TemplateSpec of the results |
| ReportData.BuildRegistrationMetrics | internal/report/data.go:113-130 | the loop computes RegistrationMetrics |
| ReportData.RegistrationMetricsProperties | internal/report/data.go:113-130 | one "success" registration row per nlp model with a positive time, in model order |
| ReportData.BuildInferenceMetrics | internal/report/data.go:132-172 | the loop computes InferenceMetrics |
| ReportData.InferenceMetricsProperties | internal/report/data.go:132-172 | every row is small or large inference with a positive value, and "✅ Success" exactly for status "success" |
| ReportData.BuildChartData | internal/report/data.go:174-195 | the loop computes ChartOf |
| ReportData.ChartOfShape | internal/report/data.go:174-195 | three equal-length lists, one element per inference row, other rows ignored |
| ReportData.TotalOf | internal/report/data.go:96-102 | the total is the sum of the metric values |
| ReportData.ChartAgreesWithGenerator | internal/report/data.go:132-195 | the chart built from the inference metrics equals the template generator's chart |
| ReportData.PrepareData | internal/report/data.go:67-111 | the report data equals DataSpec of the results |
| ReportData.ReportsAgree | internal/report/data.go:84-102 | both report builders agree on card class, totals, chart, hardware and category statuses; the card is "warning" iff the rate is below 100 |
| TestRunner.RunInferenceTests | internal/test/runner.go:193-243 | the loop updates the metrics to AfterInferenceTests |
| TestRunner.RunModels | internal/test/runner.go:199-237 | the per-model loop over any model list updates the metrics to AfterInferenceTests |
| TestRunner.InferenceCounters | internal/test/runner.go:199-237 | each nlp model adds exactly two inferences; each run adds one success or one failure; install and registration data are unchanged |
| TestRunner.RecordRun | internal/test/runner.go:209-236 | recording one inference run updates the metrics to AfterRun |
| TestRunner.AfterModelCounters | internal/test/runner.go:199-237 | one model adds two inferences if it is nlp and none otherwise; success and failure counts never drop and together grow as the total does; install and registration data are unchanged |
| TestRunner.TotalIsSuccessPlusFailure | internal/test/runner.go:199-237 | from fresh metrics, total = successful + failed = 2 per nlp model |
| TestRunner.InferenceStatusRecorded | internal/test/runner.go:209-236 | with distinct names, a status is "success" iff that run had no error, and the time is the run's when it succeeded |
| TestRunner.TimesOnlyOnSuccess | internal/test/runner.go:209-236 | a time appears only for an nlp model whose run of that size succeeded |
| TestRunner.InstallModels | internal/test/runner.go:117-146 | ModelsInstalled grows by the number of counted specs, and nothing else changes |
| TestRunner.CountInstalledAll | internal/test/runner.go:124-142 | every spec counts iff each was freshly installed, or declined with a resolving path |
| TestRunner.RegisterModels | internal/test/runner.go:166-191 | only the registration-time map changes |
| TestRunner.RegistrationRecorded | internal/test/runner.go:172-187 | a name gains a time iff some spec of that name resolved and registered |
| TestRunner.SuccessRate | internal/test/runner.go:273-278 | 0 when nothing ran; otherwise in [0, 100], and 100 iff every inference succeeded |
| TestTypes.Metrics.constructor | internal/test/types.go:54-62 | all five maps empty, all counters zero |
| TestTypes.Results.constructor | internal/test/types.go:65-73 | the versions are stored as given, with fresh empty metrics and empty hardware and resource maps |
| TestTypes.TestModels | internal/test/runner.go:280-299 | two models, or seven when testing all, with the base two first |
| TestTypes.TestModelNamesDistinct | internal/test/runner.go:280-299 | no two test models share a name |
| Installer.ParseSpec | internal/model/installer.go:18-21 | valid iff the spec holds exactly one "@"; the parts rejoin to the spec |
| Installer.InstallPrecheckOrder | internal/model/installer.go:16-44 | an invalid spec is an error; resnet, vgg and clip are skipped unless testing all; a present model returns early; a model not found is an error iff the home directory is unknown, and goes on to Axon otherwise |
| Installer.GetPathProperties | internal/model/installer.go:317-358 | an error iff the spec is invalid; a found path exists and ends in model.onnx; the standard layout wins |
| Installer.AltCacheName | internal/model/installer.go:333-335 | every "/" and "@" becomes "-", and nothing else changes |
| Installer.ContainsAny | internal/model/installer.go:287-313 | true iff some keyword occurs |
| Installer.ProgressIgnoresCase | internal/model/installer.go:287-313 | a line and its lower-cased form are classified alike |
| Installer.ErrorFiltersCompared | internal/model/installer.go:126-131 | the case-sensitive post-install check implies the stderr alert; upper-case "ERROR" is alerted and fails Register but passes the post-install check |
| ModelInference.GenerateTestInput | internal/model/inference.go:61-124 | never fails, ignores the model type, and returns TestInput |
| ModelInference.TestInputShapes | internal/model/inference.go:66-122 | ids of 7/4/5/3 small and 16 large; only BERT adds a mask of ones and token types of zeros, as long as its ids |
| Release.ArchiveNameLayout | internal/release/downloader.go:62 | the archive is mlos-core_<version>_<GOOS>-<GOARCH>.tar.gz |
| Release.ReleaseArch | internal/release/downloader.go:424-445 | getPlatform keeps the architecture unchanged |
| Release.ReleaseOS | internal/release/downloader.go:436-442 | getPlatform keeps the operating system name unchanged |
| Release.ChooseToken | internal/release/downloader.go:66-70 | GITHUB_TOKEN when non-empty, else GH_TOKEN |
| Release.FindAssetURL | internal/release/downloader.go:514-544 | the two selection loops compute SelectURL |
| Release.SelectURLProperties | internal/release/downloader.go:514-544 | the first exact-name asset, when it has a URL, wins; otherwise the first asset containing a variant or the name without .tar.gz that has a URL wins; a chosen URL is that of a matching asset; and the result is empty (the not-found error) iff no matching asset has a URL |
| Release.VariantURLFirst | internal/release/downloader.go:522-540 | the variant pass yields the URL of the first matching asset that has one, and nothing iff no matching asset has a URL |
| Release.ExtractDir | internal/release/downloader.go:124-142 | the directory-counting loop computes ExtractDirOf |
| Release.ExtractDirRule | internal/release/downloader.go:124-142 | the extract dir becomes the single subdirectory iff exactly one entry is a directory |
| Release.ProbeBinary | internal/release/downloader.go:148-162 | the first existing path of the six, in probe order, or "" |
| Release.FirstExisting | internal/release/downloader.go:148-162 | no earlier path exists, and the returned one does |
| Release.WaitForServer | internal/release/downloader.go:447-475 | ready iff some probe of the first 30 attempts answered with a code other than "" and "000"; stops at the first such attempt |
| Config.Validate | internal/config/config.go:58-66 | an empty Axon version is reported first, then an empty Core version; otherwise valid |
| Config.NewProperties | internal/config/config.go:27-55 | versions and flags kept; an empty output dir becomes e2e-results-<seconds>; TestDir is OutputDir; report, log and metrics files sit inside it |

## Left out

- Floating point. Scores, norms, rates and statistics are exact reals.
  Rounding to two decimals (render.py:76-81, aggregate-results.py:193-196,
  runner.go:277), the median and standard deviation (historical-metrics.py:185-197)
  and the GB conversion (generator.go:204-220) are not modelled.
- `embedding_normalized`, `embeddings_compatible` and `embedding_similarity` keep
  only their structural failure branches and the exact square-based threshold
  tests. Computed norms and similarities are not stored in the details.
- Json.PyStr: `str()` is approximate in three cases. A non-integral float is the
  placeholder "<float>", not Python's shortest repr ("0.5"). An integral float
  of 1e16 or more is written as digits plus ".0", not as "1e+16". Strings
  inside lists and dicts are single-quoted without repr's escaping or its
  switch to double quotes. So when generation_contains finds its text as such
  a value (say `{"generated_text": 0.5}`), the model can disagree with the
  script: keyword "0.5" passes in Python and fails here, and keyword "float"
  does the reverse.
- Validators.SortedPositions: only lists of numbers, or lists of fewer than
  two elements, are ranked. Python would also sort homogeneous lists of
  strings or lists; here those raise TypeError.
- Result messages are kept as the structured data their f-strings are built
  from, not as text. Exception messages are reduced to the exception's kind.
- Text: case mapping is ASCII only. Python's `lower`/`upper` and Go's
  `ToLower`/`ToUpper` are Unicode-aware.
- Integers are unbounded. Go's `int` and `int64` overflow is not modelled.
- File, YAML and JSON I/O are not modelled: loading the golden data, metrics,
  history and configuration, and writing reports. Their parsed values are
  parameters.
- Also parameters, or not modelled: clocks and timestamps (including the
  history's `generated_at`), HTTP calls, `exec` of docker, axon and curl,
  tar extraction, and the home directory.
- The seeded random image, audio and pixel data of the input generators is
  not modelled. Neither are their tokenizers; only the fallbacks are.
- Regex scraping of the test log is not modelled. The update loops run over
  abstract (name, time) match lists.
- HTML generation in render.py and generator.go is not modelled. Neither are
  the installation and breakdown charts, the JSON encoding of chart lists,
  or the template keys other than {{TOTAL_INFERENCES}} and {{MODELS_TESTED}}.
- Resource usage, hardware detection and the hardware placeholders of
  aggregate-results.py are not modelled.
- Install's goroutine that streams Axon output is not modelled: it is
  concurrency. Only its line filters are.
- GetPath's debug listing of the files found is not modelled: it is output
  only.
- The runner calls `Register` with three arguments and `RunInference` with
  four, but the declarations take two and three. Each function is modelled by
  its declaration, and the runner by the outcomes those calls report.
- Nothing reads `total_register_time` in aggregate-results.py, so it is not
  modelled.
- LoadConfig: the `models` mapping is an association list with distinct
  names. Setting values are typed: integers, booleans and strings.
- HistoricalMetrics.CalcStatsProperties: the mean is exact and bounded by
  the extremes. The rounded mean, median and stdev are left out, as above.

## Findings

| source | as written | input that shows it | evidently intended | confidence | as-written member | corrected member |
|---|---|---|---|---|---|---|
| scripts/load-config.py:87-92 | INPUT_TYPE defaults a missing `input_type` to "text", but the size lines test the raw value | a model without `input_type`: INPUT_TYPE="text" is emitted, but no SMALL_TOKENS or LARGE_TOKENS line (LoadConfig.MissingInputTypeLosesTokens) | the size lines follow the declared type, so a default text model gets its 7/128 token lines (LoadConfig.ModelBlockMatchesDeclaredType). The printed output, LoadConfig.OutputBashVars, keeps the as-written blocks; LoadConfig.BashLinesIntendedCompared relates it to the corrected output | medium, not executed | LoadConfig.ModelBlockAsWritten | LoadConfig.ModelBlock |
