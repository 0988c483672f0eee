// The model-configuration loader: which models are enabled, the lookup of
// one model's entry, and the bash variable lines emitted for the shell
// scripts. Reading the YAML file is left out: the parsed configuration is
// a parameter, its `models` mapping an association list in file order.
module LoadConfig {
  import opened Json
  import opened Text
  import opened MetricsFile

  datatype InputSize = InputSize(tokens: Option<int>, width: Option<int>, height: Option<int>)

  datatype ModelConfig = ModelConfig(
    enabled: Option<bool>,
    axonId: Option<string>,
    category: Option<string>,
    inputType: Option<string>,
    smallInput: Option<InputSize>,
    largeInput: Option<InputSize>)

  datatype Settings = Settings(installTimeout: Option<int>, inferenceTimeout: Option<int>, runLargeTests: Option<bool>)

  datatype Config = Config(settings: Option<Settings>, models: Option<seq<(string, ModelConfig)>>)

  function ModelsOf(config: Config): seq<(string, ModelConfig)> {
    if config.models.Some? then config.models.value else []
  }

  /** The names whose `enabled` flag is set, in mapping order; a missing flag counts as false. */
  function EnabledNames(models: seq<(string, ModelConfig)>): seq<string> {
    if models == [] then []
    else
      var init := EnabledNames(models[..|models| - 1]);
      if Flag(models[|models| - 1].1.enabled) then init + [models[|models| - 1].0] else init
  }

  /** get_enabled_models. */
  function GetEnabledModels(config: Config): seq<string> {
    EnabledNames(ModelsOf(config))
  }

  /** A name is listed exactly when some entry of that name is enabled; there are at most as many names as entries. */
  lemma {:induction false} EnabledNamesExact(models: seq<(string, ModelConfig)>)
    ensures forall n :: n in EnabledNames(models) <==> exists i :: 0 <= i < |models| && models[i].0 == n && Flag(models[i].1.enabled)
    ensures |EnabledNames(models)| <= |models|
  {
    if models != [] {
      var init := models[..|models| - 1];
      EnabledNamesExact(init);
      assert forall i :: 0 <= i < |init| ==> init[i] == models[i];
    }
  }

  /** The names keep mapping order: the enabled names of a prefix of the mapping are a prefix of the list. */
  lemma {:induction false} EnabledNamesInOrder(models: seq<(string, ModelConfig)>, k: nat)
    requires k <= |models|
    ensures EnabledNames(models[..k]) <= EnabledNames(models)
    decreases |models|
  {
    if k < |models| {
      var init := models[..|models| - 1];
      assert init[..k] == models[..k];
      EnabledNamesInOrder(init, k);
    } else {
      assert models[..k] == models;
    }
  }

  /** A lookup that finds a value finds one stored under that key. */
  lemma {:induction false} FindStored<V>(m: seq<(string, V)>, k: string)
    ensures Find(m, k).Some? ==> (k, Find(m, k).value) in m
  {
    if m != [] && m[0].0 != k {
      FindStored(m[1..], k);
    }
  }

  /** get_model_info: None for an absent name, the stored entry otherwise. */
  function GetModelInfo(config: Config, name: string): (r: Option<ModelConfig>)
    ensures r.None? <==> !HasKey(ModelsOf(config), name)
    ensures r.Some? ==> (name, r.value) in ModelsOf(config)
  {
    FindStored(ModelsOf(config), name);
    Find(ModelsOf(config), name)
  }

  function Quoted(s: string): string {
    ['"'] + s + ['"']
  }

  function SettingsOf(config: Config): Settings {
    if config.settings.Some? then config.settings.value else Settings(None, None, None)
  }

  /** The header lines: the timeouts (600 and 60 by default), the large-test switch (on by default), the enabled names and their count. */
  function HeaderLines(config: Config): seq<string> {
    var settings := SettingsOf(config);
    var enabled := GetEnabledModels(config);
    [ "# Auto-generated from config/models.yaml",
      "CONFIG_INSTALL_TIMEOUT=" + IntToString(if settings.installTimeout.Some? then settings.installTimeout.value else 600),
      "CONFIG_INFERENCE_TIMEOUT=" + IntToString(if settings.inferenceTimeout.Some? then settings.inferenceTimeout.value else 60),
      "CONFIG_RUN_LARGE_TESTS=" + (if settings.runLargeTests.None? || settings.runLargeTests.value then "true" else "false"),
      "CONFIG_ENABLED_MODELS=" + Quoted(JoinWith(enabled, " ")),
      "CONFIG_MODEL_COUNT=" + IntToString(|enabled|),
      "" ]
  }

  function SizeOf(s: Option<InputSize>): InputSize {
    if s.Some? then s.value else InputSize(None, None, None)
  }

  function IntOr(n: Option<int>, default: int): string {
    IntToString(if n.Some? then n.value else default)
  }

  /** The token or image-size lines for an input type. */
  function InputLines(prefix: string, inputType: Option<string>, m: ModelConfig): seq<string> {
    var small := SizeOf(m.smallInput);
    var large := SizeOf(m.largeInput);
    if inputType == Some("text") then
      [prefix + "_SMALL_TOKENS=" + IntOr(small.tokens, 7), prefix + "_LARGE_TOKENS=" + IntOr(large.tokens, 128)]
    else if inputType == Some("image") then
      [prefix + "_SMALL_WIDTH=" + IntOr(small.width, 32), prefix + "_SMALL_HEIGHT=" + IntOr(small.height, 32),
       prefix + "_LARGE_WIDTH=" + IntOr(large.width, 64), prefix + "_LARGE_HEIGHT=" + IntOr(large.height, 64)]
    else []
  }

  function DeclaredType(m: ModelConfig): string {
    if m.inputType.Some? then m.inputType.value else "text"
  }

  function CommonLines(prefix: string, m: ModelConfig): seq<string> {
    [ prefix + "_AXON_ID=" + Quoted(if m.axonId.Some? then m.axonId.value else ""),
      prefix + "_CATEGORY=" + Quoted(if m.category.Some? then m.category.value else "nlp"),
      prefix + "_INPUT_TYPE=" + Quoted(DeclaredType(m)) ]
  }

  /** One model's block as the script writes it: the size lines follow the raw `input_type`, not the declared default. */
  function ModelBlockAsWritten(name: string, m: ModelConfig): seq<string> {
    var prefix := "MODEL_" + Upper(name);
    CommonLines(prefix, m) + InputLines(prefix, m.inputType, m) + [""]
  }

  /** One model's block with the size lines following the declared input type, "text" by default. */
  function ModelBlock(name: string, m: ModelConfig): seq<string> {
    var prefix := "MODEL_" + Upper(name);
    CommonLines(prefix, m) + InputLines(prefix, Some(DeclaredType(m)), m) + [""]
  }

  /**
   * A model without `input_type` is declared "text" but, as written, gets no
   * token lines, while the corrected block gives it the two token lines.
   */
  lemma MissingInputTypeLosesTokens(name: string, m: ModelConfig)
    requires m.inputType.None?
    ensures var prefix := "MODEL_" + Upper(name);
      && ModelBlockAsWritten(name, m)[2] == prefix + "_INPUT_TYPE=" + Quoted("text")
      && |ModelBlockAsWritten(name, m)| == 4
      && |ModelBlock(name, m)| == 6
      && ModelBlock(name, m)[3] == prefix + "_SMALL_TOKENS=" + IntOr(SizeOf(m.smallInput).tokens, 7)
  {
    var prefix := "MODEL_" + Upper(name);
    assert InputLines(prefix, m.inputType, m) == [];
    assert |InputLines(prefix, Some("text"), m)| == 2;
  }

  /**
   * In the corrected block the size lines always match the declared type:
   * two token lines for "text", four size lines for "image", none
   * otherwise; and for a model that states its type the two blocks agree.
   */
  lemma ModelBlockMatchesDeclaredType(name: string, m: ModelConfig)
    ensures var b := ModelBlock(name, m); var prefix := "MODEL_" + Upper(name);
      && b[2] == prefix + "_INPUT_TYPE=" + Quoted(DeclaredType(m))
      && (DeclaredType(m) == "text" ==> |b| == 6 && b[3] == prefix + "_SMALL_TOKENS=" + IntOr(SizeOf(m.smallInput).tokens, 7)
                                         && b[4] == prefix + "_LARGE_TOKENS=" + IntOr(SizeOf(m.largeInput).tokens, 128))
      && (DeclaredType(m) == "image" ==> |b| == 8)
      && (DeclaredType(m) != "text" && DeclaredType(m) != "image" ==> |b| == 4)
      && b[|b| - 1] == ""
    ensures m.inputType.Some? ==> ModelBlock(name, m) == ModelBlockAsWritten(name, m)
  {
  }

  /** The block of one named model as `block` writes it, nothing for a name without an entry. */
  function BlockOf(models: seq<(string, ModelConfig)>, name: string, block: (string, ModelConfig) -> seq<string>): seq<string> {
    var m := Find(models, name);
    if m.Some? then block(name, m.value) else []
  }

  /** The per-model blocks of the named models, in order. */
  function Blocks(models: seq<(string, ModelConfig)>, names: seq<string>, block: (string, ModelConfig) -> seq<string>): seq<string> {
    if names == [] then []
    else Blocks(models, names[..|names| - 1], block) + BlockOf(models, names[|names| - 1], block)
  }

  /** The lines the script prints, each model's block as written. */
  function BashLines(config: Config): seq<string> {
    HeaderLines(config) + Blocks(ModelsOf(config), GetEnabledModels(config), ModelBlockAsWritten)
  }

  /** The lines with each model's size lines following its declared input type. */
  function BashLinesIntended(config: Config): seq<string> {
    HeaderLines(config) + Blocks(ModelsOf(config), GetEnabledModels(config), ModelBlock)
  }

  /** output_bash_vars, collecting the lines it prints. */
  method OutputBashVars(config: Config) returns (lines: seq<string>)
    ensures lines == BashLines(config)
  {
    var models := ModelsOf(config);
    var enabled := GetEnabledModels(config);
    var blocks := [];
    var i := 0;
    while i < |enabled|
      invariant 0 <= i <= |enabled|
      invariant blocks == Blocks(models, enabled[..i], ModelBlockAsWritten)
    {
      var name := enabled[i];
      assert enabled[..i + 1][..i] == enabled[..i];
      assert enabled[..i + 1][i] == name;
      var m := Find(models, name);
      if m.Some? {
        blocks := blocks + ModelBlockAsWritten(name, m.value);
      }
      i := i + 1;
    }
    assert enabled[..i] == enabled;
    lines := HeaderLines(config) + blocks;
  }

  /** Both block forms hold at least the three common lines and the closing blank line. */
  lemma BlockSizes(name: string, m: ModelConfig)
    ensures |ModelBlockAsWritten(name, m)| >= 4 && |ModelBlock(name, m)| >= 4
  {
  }

  /** Every enabled name has an entry, so each gets its block: the blocks hold at least four lines per enabled model. */
  lemma {:induction false} BlocksCover(models: seq<(string, ModelConfig)>, names: seq<string>, block: (string, ModelConfig) -> seq<string>)
    requires forall n :: n in names ==> HasKey(models, n)
    requires forall n, m :: |block(n, m)| >= 4
    ensures |Blocks(models, names, block)| >= 4 * |names|
  {
    if names != [] {
      var name := names[|names| - 1];
      assert name in names;
      BlocksCover(models, names[..|names| - 1], block);
      assert |BlockOf(models, name, block)| >= 4;
    }
  }

  /** How many of the named models have an entry without `input_type`. */
  function UntypedCount(models: seq<(string, ModelConfig)>, names: seq<string>): nat {
    if names == [] then 0
    else
      var m := Find(models, names[|names| - 1]);
      UntypedCount(models, names[..|names| - 1]) + (if m.Some? && m.value.inputType.None? then 1 else 0)
  }

  /**
   * The corrected blocks are two lines longer for each model without
   * `input_type` (its token lines), and identical to the printed blocks when
   * every listed model states its type.
   */
  lemma {:induction false} BlocksIntendedCompared(models: seq<(string, ModelConfig)>, names: seq<string>)
    ensures |Blocks(models, names, ModelBlock)| == |Blocks(models, names, ModelBlockAsWritten)| + 2 * UntypedCount(models, names)
    ensures UntypedCount(models, names) == 0 ==> Blocks(models, names, ModelBlock) == Blocks(models, names, ModelBlockAsWritten)
  {
    if names != [] {
      var name := names[|names| - 1];
      BlocksIntendedCompared(models, names[..|names| - 1]);
      var m := Find(models, name);
      if m.Some? {
        ModelBlockMatchesDeclaredType(name, m.value);
        if m.value.inputType.None? {
          MissingInputTypeLosesTokens(name, m.value);
        }
      }
    }
  }

  /**
   * The script's output and the corrected output share the header; the
   * corrected one has two more lines per enabled model without `input_type`,
   * and the two are equal when every enabled model states its type.
   */
  lemma BashLinesIntendedCompared(config: Config)
    ensures var untyped := UntypedCount(ModelsOf(config), GetEnabledModels(config));
      && BashLinesIntended(config)[..7] == BashLines(config)[..7]
      && |BashLinesIntended(config)| == |BashLines(config)| + 2 * untyped
      && (untyped == 0 ==> BashLinesIntended(config) == BashLines(config))
  {
    BlocksIntendedCompared(ModelsOf(config), GetEnabledModels(config));
  }

  /**
   * The count line is the number of enabled models, each of which gets a
   * block; and for names without spaces, splitting the quoted list on
   * spaces gives the enabled names back.
   */
  lemma BashLinesProperties(config: Config)
    ensures var enabled := GetEnabledModels(config); var lines := BashLines(config);
      && lines[5] == "CONFIG_MODEL_COUNT=" + IntToString(|enabled|)
      && lines[4] == "CONFIG_ENABLED_MODELS=" + Quoted(JoinWith(enabled, " "))
      && |lines| >= 7 + 4 * |enabled|
    ensures var enabled := GetEnabledModels(config);
      enabled != [] && (forall i :: 0 <= i < |enabled| ==> ' ' !in enabled[i]) ==> Split(JoinWith(enabled, " "), ' ') == enabled
  {
    var enabled := GetEnabledModels(config);
    EnabledNamesExact(ModelsOf(config));
    forall n | n in enabled
      ensures HasKey(ModelsOf(config), n)
    {
    }
    forall n, m
      ensures |ModelBlockAsWritten(n, m)| >= 4
    {
      BlockSizes(n, m);
    }
    BlocksCover(ModelsOf(config), enabled, ModelBlockAsWritten);
    if enabled != [] && (forall i :: 0 <= i < |enabled| ==> ' ' !in enabled[i]) {
      JoinSplit(enabled, ' ');
    }
  }
}
