// The string and path rules of the Go model installer: splitting a model
// spec "repo/model@version", the skip rule for vision and multimodal models,
// the cache-path layout, the progress-line filter and the three error
// filters. The file system is a set of existing paths; the home directory is
// an optional string (absent when it cannot be determined).
module Installer {
  import opened Text
  import opened GoPath
  import opened Json

  /** The two halves of a model spec around its "@". */
  datatype SpecParts = SpecParts(repoModel: string, version: string)

  /** Splitting on "@" must give exactly two parts; anything else is an invalid spec. */
  function ParseSpec(spec: string): (r: Option<SpecParts>)
    ensures r.Some? <==> CountChar(spec, '@') == 1
    ensures r.Some? ==> r.value.repoModel + "@" + r.value.version == spec
    ensures r.Some? ==> '@' !in r.value.repoModel && '@' !in r.value.version
  {
    var parts := Split(spec, '@');
    SplitCount(spec, '@');
    SplitJoin(spec, '@');
    if |parts| != 2 then None
    else
      assert parts == [parts[0]] + [parts[1]];
      Some(SpecParts(parts[0], parts[1]))
  }

  /** Without testing all models, a repo part naming resnet, vgg or clip is skipped. */
  predicate Skipped(repoModel: string, testAllModels: bool) {
    !testAllModels && (Contains(repoModel, "resnet") || Contains(repoModel, "vgg") || Contains(repoModel, "clip"))
  }

  function HomeOr(home: Option<string>, fallback: string): string {
    if home.Some? then home.value else fallback
  }

  /** GetModelPath: <home>/.axon/cache/models/<repoModel>/<version>/model.onnx, home "." when unknown. */
  function ModelPath(home: Option<string>, repoModel: string, version: string): string {
    Join([HomeOr(home, "."), ".axon", "cache", "models", repoModel, version, "model.onnx"])
  }

  /** The alternative cache directory name: every "/" and then every "@" of the spec becomes "-". */
  function AltCacheName(spec: string): (r: string)
    ensures |r| == |spec|
    ensures '/' !in r && '@' !in r
    ensures forall i :: 0 <= i < |spec| ==> r[i] == if spec[i] == '/' || spec[i] == '@' then '-' else spec[i]
  {
    var once := ReplaceAll(spec, "/", "-");
    ReplaceCharPointwise(spec, '/', '-');
    ReplaceCharPointwise(once, '@', '-');
    ReplaceAll(once, "@", "-")
  }

  /** The alternative path; an unknown home directory is the empty string here. */
  function AltPath(home: Option<string>, spec: string): string {
    Join([HomeOr(home, ""), ".axon", "cache", "models", AltCacheName(spec), "model.onnx"])
  }

  datatype PathLookup = InvalidSpecFormat | Found(path: string) | OnnxNotFound

  /** GetPath: the standard path if it exists, else the alternative path if it exists, else an error. */
  function GetPath(spec: string, home: Option<string>, existing: set<string>): PathLookup {
    match ParseSpec(spec)
    case None => InvalidSpecFormat
    case Some(p) =>
      var standard := ModelPath(home, p.repoModel, p.version);
      if standard in existing then Found(standard)
      else if AltPath(home, spec) in existing then Found(AltPath(home, spec))
      else OnnxNotFound
  }

  /**
   * GetPath finds only existing paths ending in model.onnx, prefers the
   * standard layout, and fails on a spec without exactly one "@".
   */
  lemma GetPathProperties(spec: string, home: Option<string>, existing: set<string>)
    ensures GetPath(spec, home, existing) == InvalidSpecFormat <==> CountChar(spec, '@') != 1
    ensures GetPath(spec, home, existing).Found? ==>
      var p := GetPath(spec, home, existing).path;
      p in existing && HasSuffix(p, "model.onnx")
    ensures ParseSpec(spec).Some? &&
            ModelPath(home, ParseSpec(spec).value.repoModel, ParseSpec(spec).value.version) in existing ==>
      GetPath(spec, home, existing) == Found(ModelPath(home, ParseSpec(spec).value.repoModel, ParseSpec(spec).value.version))
  {
    match ParseSpec(spec)
    case None =>
    case Some(p) =>
      var elems := [HomeOr(home, "."), ".axon", "cache", "models", p.repoModel, p.version, "model.onnx"];
      JoinEndsWithName(elems, "model.onnx");
      var alt := [HomeOr(home, ""), ".axon", "cache", "models", AltCacheName(spec), "model.onnx"];
      JoinEndsWithName(alt, "model.onnx");
  }

  /** What Install decides before it runs Axon. */
  datatype InstallStart = SpecError | SkipModel | AlreadyInstalled(path: string) | HomeUnknown | RunAxon(parts: SpecParts)

  /**
   * Install's checks in order: an invalid spec is an error, a skipped model
   * and an already present model both return "not installed" without error,
   * an unknown home directory is an error, and only the rest goes on to Axon.
   */
  function InstallPrecheck(spec: string, testAllModels: bool, home: Option<string>, existing: set<string>): InstallStart {
    match ParseSpec(spec)
    case None => SpecError
    case Some(p) =>
      if Skipped(p.repoModel, testAllModels) then SkipModel
      else match GetPath(spec, home, existing)
        case Found(path) => AlreadyInstalled(path)
        case _ => if home.None? then HomeUnknown else RunAxon(p)
  }

  /**
   * Testing all models never skips; otherwise a resnet, vgg or clip repo is
   * skipped even when present. A model not found goes on to Axon only when
   * the home directory is known, and is an error otherwise.
   */
  lemma InstallPrecheckOrder(spec: string, testAllModels: bool, home: Option<string>, existing: set<string>)
    ensures InstallPrecheck(spec, testAllModels, home, existing) == SpecError <==> CountChar(spec, '@') != 1
    ensures testAllModels ==> InstallPrecheck(spec, testAllModels, home, existing) != SkipModel
    ensures InstallPrecheck(spec, testAllModels, home, existing) == SkipModel <==>
      ParseSpec(spec).Some? && Skipped(ParseSpec(spec).value.repoModel, testAllModels)
    ensures InstallPrecheck(spec, testAllModels, home, existing).AlreadyInstalled? ==>
      InstallPrecheck(spec, testAllModels, home, existing).path in existing
    ensures InstallPrecheck(spec, testAllModels, home, existing) == HomeUnknown <==>
      ParseSpec(spec).Some? && !Skipped(ParseSpec(spec).value.repoModel, testAllModels)
      && !GetPath(spec, home, existing).Found? && home.None?
    ensures InstallPrecheck(spec, testAllModels, home, existing).RunAxon? ==>
      home.Some? && !GetPath(spec, home, existing).Found?
  {
    GetPathProperties(spec, home, existing);
  }

  /** Some keyword occurs in `s`. */
  function ContainsAny(s: string, keywords: seq<string>): (r: bool)
    ensures r <==> exists i :: 0 <= i < |keywords| && Contains(s, keywords[i])
  {
    if keywords == [] then false
    else if Contains(s, keywords[0]) then true
    else
      var r := ContainsAny(s, keywords[1..]);
      assert forall i :: 1 <= i < |keywords| ==> keywords[i] == keywords[1..][i - 1];
      r
  }

  const ProgressKeywords := ["downloading", "downloaded", "converting", "converted", "installing",
    "installed", "extracting", "extracted", "loading", "loaded", "processing", "progress", "%",
    "complete", "success", "✓", "✅"]

  /** A line worth echoing: its lower-cased form contains a progress keyword. */
  predicate IsProgressMessage(line: string) {
    ContainsAny(Lower(line), ProgressKeywords)
  }

  /** The progress filter ignores case: a line and its lower-cased form are classified alike. */
  lemma ProgressIgnoresCase(line: string)
    ensures IsProgressMessage(line) == IsProgressMessage(Lower(line))
  {
    LowerIdempotent(line);
  }

  /** The stderr echo filter: "error", "warning" or "failed" in any case. */
  predicate StderrAlert(line: string) {
    ContainsAny(Lower(line), ["error", "warning", "failed"])
  }

  /** The check after a zero exit status: "error" or "failed", case-sensitively. */
  predicate PostInstallReportsErrors(stderr: string) {
    Contains(stderr, "error") || Contains(stderr, "failed")
  }

  datatype RegisterOutcome = Registered | CommandFailed | OutputReportsError

  /** Register: a failing command, or output containing "error" in any case, is a failure. */
  function Register(commandOk: bool, output: string): RegisterOutcome {
    if !commandOk then CommandFailed
    else if Contains(Lower(output), "error") then OutputReportsError
    else Registered
  }

  /**
   * The case-sensitive post-install check is stricter than the stderr alert:
   * whatever it rejects would also be alerted, but an upper-case "ERROR"
   * is alerted (and fails Register) while passing the post-install check.
   */
  lemma ErrorFiltersCompared(stderr: string)
    ensures PostInstallReportsErrors(stderr) ==> StderrAlert(stderr)
    ensures Contains(stderr, "error") ==> Register(true, stderr) == OutputReportsError
    ensures !PostInstallReportsErrors("ERROR") && StderrAlert("ERROR") && Register(true, "ERROR") == OutputReportsError
  {
    PostInstallImpliesAlert(stderr);
    UpperCaseErrorSlipsThrough();
  }

  lemma PostInstallImpliesAlert(stderr: string)
    ensures PostInstallReportsErrors(stderr) ==> StderrAlert(stderr)
    ensures Contains(stderr, "error") ==> Register(true, stderr) == OutputReportsError
  {
    if Contains(stderr, "error") {
      ContainsLower(stderr, "error");
      assert Contains(Lower(stderr), ["error", "warning", "failed"][0]);
    } else if Contains(stderr, "failed") {
      ContainsLower(stderr, "failed");
      assert Contains(Lower(stderr), ["error", "warning", "failed"][2]);
    }
  }

  lemma UpperCaseErrorSlipsThrough()
    ensures !PostInstallReportsErrors("ERROR") && StderrAlert("ERROR") && Register(true, "ERROR") == OutputReportsError
  {
    assert Lower("ERROR") == "error";
    assert OccursAt(Lower("ERROR"), "error", 0);
    assert Contains(Lower("ERROR"), ["error", "warning", "failed"][0]);
    assert !OccursAt("ERROR", "error", 0);
    assert !OccursAt("ERROR", "failed", 0);
  }
}
