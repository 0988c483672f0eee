// The Go test runner configuration: the derived output paths set by New and the
// required-version check of Validate. The clock and directory creation are
// parameters.
module Config {
  import opened Text
  import opened GoPath
  import opened Json

  datatype Config = Config(
    axonVersion: string,
    coreVersion: string,
    outputDir: string,
    testAllModels: bool,
    skipInstall: bool,
    verbose: bool,
    testDir: string,
    reportPath: string,
    logPath: string,
    metricsPath: string)

  datatype ConfigError = AxonVersionRequired | CoreVersionRequired

  /** Validate: the Axon version is checked first, then the Core version. */
  function Validate(c: Config): (r: Option<ConfigError>)
    ensures r.None? <==> c.axonVersion != "" && c.coreVersion != ""
    ensures r == Some(AxonVersionRequired) <==> c.axonVersion == ""
    ensures r == Some(CoreVersionRequired) <==> c.axonVersion != "" && c.coreVersion == ""
  {
    if c.axonVersion == "" then Some(AxonVersionRequired)
    else if c.coreVersion == "" then Some(CoreVersionRequired)
    else None
  }

  /** New's result: the configuration, or the failure to create the output directory. */
  datatype NewResult = Created(cfg: Config) | MkdirFailed

  /** The output directory used when none is given: "e2e-results-<unix seconds>". */
  function DefaultOutputDir(unixSeconds: int): string {
    "e2e-results-" + IntToString(unixSeconds)
  }

  /** New: fills in the output directory, creates it, and derives the four paths from it. */
  function New(axonVersion: string, coreVersion: string, outputDir: string, testAllModels: bool,
               skipInstall: bool, verbose: bool, unixSeconds: int, mkdirOk: bool): NewResult
  {
    var dir := if outputDir == "" then DefaultOutputDir(unixSeconds) else outputDir;
    if !mkdirOk then MkdirFailed
    else Created(Config(axonVersion, coreVersion, dir, testAllModels, skipInstall, verbose,
      dir,
      Join([dir, "release-validation-report.html"]),
      Join([dir, "test.log"]),
      Join([dir, "metrics.json"])))
  }

  /**
   * A created configuration keeps the versions and flags as given, uses the
   * given output directory or the timestamped default, sets TestDir to it,
   * and names the report, log and metrics files inside it.
   */
  lemma NewProperties(axonVersion: string, coreVersion: string, outputDir: string, testAllModels: bool,
                      skipInstall: bool, verbose: bool, unixSeconds: int, mkdirOk: bool)
    ensures New(axonVersion, coreVersion, outputDir, testAllModels, skipInstall, verbose, unixSeconds, mkdirOk).Created? <==> mkdirOk
    ensures mkdirOk ==>
      var c := New(axonVersion, coreVersion, outputDir, testAllModels, skipInstall, verbose, unixSeconds, mkdirOk).cfg;
      && c.axonVersion == axonVersion && c.coreVersion == coreVersion
      && c.testAllModels == testAllModels && c.skipInstall == skipInstall && c.verbose == verbose
      && (outputDir != "" ==> c.outputDir == outputDir)
      && (outputDir == "" ==> HasPrefix(c.outputDir, "e2e-results-"))
      && c.testDir == c.outputDir
      && HasSuffix(c.reportPath, "release-validation-report.html")
      && HasSuffix(c.logPath, "test.log")
      && HasSuffix(c.metricsPath, "metrics.json")
      && (Validate(c).None? <==> axonVersion != "" && coreVersion != "")
  {
    var dir := if outputDir == "" then DefaultOutputDir(unixSeconds) else outputDir;
    JoinEndsWithName([dir, "release-validation-report.html"], "release-validation-report.html");
    JoinEndsWithName([dir, "test.log"], "test.log");
    JoinEndsWithName([dir, "metrics.json"], "metrics.json");
    if outputDir == "" {
      assert dir[..|"e2e-results-"|] == "e2e-results-";
    }
  }
}
