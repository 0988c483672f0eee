// The tokenizer-free fallbacks of the test-input generator: the token
// lists an NLP model gets without a tokenizer, the text half of a CLIP
// input, and the dispatch on a multimodal model's type. Tokenizers and the
// seeded random image and audio data are not modelled.
module GenerateTestInput {
  import opened Json
  import opened Text
  import opened MetricsFile

  /** Named token lists in insertion order, as the generated dict holds them. */
  type Inputs = seq<(string, seq<int>)>

  /** The fields of a model's input configuration the NLP fallback reads. */
  datatype NlpConfig = NlpConfig(
    maxLength: seq<(string, int)>,
    requiredInputs: Option<seq<string>>,
    decoderStartTokenId: Option<int>)

  /** The per-size maximum length, 16 when none is configured for the size. */
  function MaxLength(cfg: NlpConfig, size: string): int {
    if Find(cfg.maxLength, size).Some? then Find(cfg.maxLength, size).value else 16
  }

  function RequiredInputs(cfg: NlpConfig): seq<string> {
    if cfg.requiredInputs.Some? then cfg.requiredInputs.value else ["input_ids"]
  }

  /** Python `max(n, 0)`: the length of `[x] * n`. */
  function AtLeastZero(n: int): nat {
    if n < 0 then 0 else n
  }

  /** One input of the fallback: present only when required. */
  function Entry(required: seq<string>, key: string, value: seq<int>): Inputs {
    if key in required then [(key, value)] else []
  }

  function FallbackIds(required: seq<string>, n: int): seq<int> {
    if "token_type_ids" in required then [101] + Repeat(7592, n - 2) + [102] else [15496] + Repeat(2746, n - 1)
  }

  function DecoderStart(cfg: NlpConfig): int {
    if cfg.decoderStartTokenId.Some? then cfg.decoderStartTokenId.value else 0
  }

  /** generate_nlp_fallback: each input present exactly when it is required. */
  function NlpFallback(cfg: NlpConfig, size: string): Inputs {
    var n := MaxLength(cfg, size);
    var required := RequiredInputs(cfg);
    Entry(required, "input_ids", FallbackIds(required, n))
    + Entry(required, "attention_mask", Repeat(1, n))
    + Entry(required, "token_type_ids", Repeat(0, n))
    + Entry(required, "decoder_input_ids", [DecoderStart(cfg)] + Repeat(0, n - 1))
  }

  const FallbackKeys := ["input_ids", "attention_mask", "token_type_ids", "decoder_input_ids"]

  /** Keys occur at most once and only the four known inputs appear, each exactly when required. */
  lemma NlpFallbackKeys(cfg: NlpConfig, size: string)
    ensures DistinctKeys(NlpFallback(cfg, size))
    ensures forall k :: HasKey(NlpFallback(cfg, size), k) <==> k in FallbackKeys && k in RequiredInputs(cfg)
  {
    var n := MaxLength(cfg, size);
    var required := RequiredInputs(cfg);
    var e1 := Entry(required, "input_ids", FallbackIds(required, n));
    var e2 := Entry(required, "attention_mask", Repeat(1, n));
    var e3 := Entry(required, "token_type_ids", Repeat(0, n));
    var e4 := Entry(required, "decoder_input_ids", [DecoderStart(cfg)] + Repeat(0, n - 1));
    forall k
      ensures HasKey(e1 + e2 + e3 + e4, k) <==> k in FallbackKeys && k in required
    {
      HasKeyAppend(e1 + e2 + e3, e4, k);
      HasKeyAppend(e1 + e2, e3, k);
      HasKeyAppend(e1, e2, k);
    }
    forall k
      ensures HasKey(e1 + e2, k) ==> !HasKey(e3, k)
      ensures HasKey(e1, k) ==> !HasKey(e2, k)
      ensures HasKey(e1 + e2 + e3, k) ==> !HasKey(e4, k)
    {
      HasKeyAppend(e1 + e2, e3, k);
      HasKeyAppend(e1, e2, k);
    }
    DistinctAppend(e1, e2);
    DistinctAppend(e1 + e2, e3);
    DistinctAppend(e1 + e2 + e3, e4);
  }

  /**
   * The BERT-style ids (when token type ids are required) frame n - 2 word
   * tokens with 101 and 102, so they have length n, or 2 when n < 2; the
   * GPT-style ids are 15496 followed by n - 1 copies of 2746.
   */
  lemma NlpFallbackIds(cfg: NlpConfig, size: string)
    requires "input_ids" in RequiredInputs(cfg)
    ensures var ids := NlpFallback(cfg, size)[0].1; var n := MaxLength(cfg, size);
      && NlpFallback(cfg, size)[0].0 == "input_ids"
      && ("token_type_ids" in RequiredInputs(cfg) ==>
            |ids| == (if n < 2 then 2 else n) && ids[0] == 101 && ids[|ids| - 1] == 102
            && forall i :: 0 < i < |ids| - 1 ==> ids[i] == 7592)
      && ("token_type_ids" !in RequiredInputs(cfg) ==>
            |ids| == (if n < 1 then 1 else n) && ids[0] == 15496 && forall i :: 0 < i < |ids| ==> ids[i] == 2746)
  {
    var n := MaxLength(cfg, size);
    var ids := NlpFallback(cfg, size)[0].1;
    assert ids == FallbackIds(RequiredInputs(cfg), n);
    if "token_type_ids" in RequiredInputs(cfg) {
      assert ids == [101] + Repeat(7592, n - 2) + [102];
      assert forall i :: 0 < i < |ids| - 1 ==> ids[i] == Repeat(7592, n - 2)[i - 1];
    } else {
      assert ids == [15496] + Repeat(2746, n - 1);
      assert forall i :: 0 < i < |ids| ==> ids[i] == Repeat(2746, n - 1)[i - 1];
    }
  }

  /** The mask is all ones, the token types all zeros, and the decoder ids the start token then zeros; each of max(n, 0) or max(n, 1) entries. */
  lemma NlpFallbackOthers(cfg: NlpConfig, size: string)
    ensures var r := NlpFallback(cfg, size); var n := MaxLength(cfg, size);
      && (HasKey(r, "attention_mask") ==> Find(r, "attention_mask").value == Repeat(1, n) && |Repeat(1, n)| == AtLeastZero(n))
      && (HasKey(r, "token_type_ids") ==> Find(r, "token_type_ids").value == Repeat(0, n))
      && (HasKey(r, "decoder_input_ids") ==>
            var d := Find(r, "decoder_input_ids").value;
            |d| == AtLeastZero(n - 1) + 1
            && d[0] == DecoderStart(cfg)
            && forall i :: 0 < i < |d| ==> d[i] == 0)
  {
    var n := MaxLength(cfg, size);
    var required := RequiredInputs(cfg);
    var e1 := Entry(required, "input_ids", FallbackIds(required, n));
    var e2 := Entry(required, "attention_mask", Repeat(1, n));
    var e3 := Entry(required, "token_type_ids", Repeat(0, n));
    var e4 := Entry(required, "decoder_input_ids", [DecoderStart(cfg)] + Repeat(0, n - 1));
    FindInFour(e1, e2, e3, e4, "attention_mask");
    FindInFour(e1, e2, e3, e4, "token_type_ids");
    FindInFour(e1, e2, e3, e4, "decoder_input_ids");
  }

  /** A lookup in four concatenated parts finds the first part holding the key. */
  lemma FindInFour(e1: Inputs, e2: Inputs, e3: Inputs, e4: Inputs, k: string)
    ensures Find(e1 + e2 + e3 + e4, k) ==
      if HasKey(e1, k) then Find(e1, k) else if HasKey(e2, k) then Find(e2, k)
      else if HasKey(e3, k) then Find(e3, k) else Find(e4, k)
  {
    FindAppend(e1 + e2 + e3, e4, k);
    FindAppend(e1 + e2, e3, k);
    FindAppend(e1, e2, k);
    HasKeyAppend(e1 + e2, e3, k);
    HasKeyAppend(e1, e2, k);
  }

  /** The CLIP text length configured for the size, 77 by default. */
  function TextMaxLength(textMaxLength: seq<(string, int)>, size: string): int {
    if Find(textMaxLength, size).Some? then Find(textMaxLength, size).value else 77
  }

  /** The text half of generate_clip_input without a tokenizer. */
  function ClipFallbackText(textMaxLength: seq<(string, int)>, size: string): Inputs {
    var n := TextMaxLength(textMaxLength, size);
    [("input_ids", [49406] + Repeat(320, n - 2) + [49407]), ("attention_mask", Repeat(1, n))]
  }

  /**
   * The CLIP ids frame n - 2 copies of 320 between the start and end
   * tokens, and the mask is n ones, so both have length n for n >= 2.
   */
  lemma ClipFallbackTextProperties(textMaxLength: seq<(string, int)>, size: string)
    ensures var r := ClipFallbackText(textMaxLength, size); var n := TextMaxLength(textMaxLength, size);
      && Keys(r) == ["input_ids", "attention_mask"]
      && |r[0].1| == (if n < 2 then 2 else n) && r[0].1[0] == 49406 && r[0].1[|r[0].1| - 1] == 49407
      && (forall i :: 0 < i < |r[0].1| - 1 ==> r[0].1[i] == 320)
      && |r[1].1| == AtLeastZero(n) && (forall i :: 0 <= i < |r[1].1| ==> r[1].1[i] == 1)
      && (n >= 2 ==> |r[0].1| == |r[1].1| == n)
  {
    var n := TextMaxLength(textMaxLength, size);
    var ids := [49406] + Repeat(320, n - 2) + [49407];
    assert forall i :: 0 < i < |ids| - 1 ==> ids[i] == Repeat(320, n - 2)[i - 1];
  }

  /** What generate_multimodal_input produces: a CLIP input (its text part), an audio input, or nothing. */
  datatype MultimodalInput = ClipInput(text: Inputs) | AudioInput | NoInput

  /** The dispatch on `model_type`, "clip" when it is missing. */
  function GenerateMultimodalInput(modelType: Option<string>, textMaxLength: seq<(string, int)>, size: string): MultimodalInput {
    var kind := if modelType.Some? then modelType.value else "clip";
    if kind == "clip" then ClipInput(ClipFallbackText(textMaxLength, size))
    else if kind == "audio" then AudioInput
    else NoInput
  }

  /** An unknown model type gives the empty input; a missing one is CLIP. */
  lemma MultimodalDispatch(modelType: Option<string>, textMaxLength: seq<(string, int)>, size: string)
    ensures GenerateMultimodalInput(modelType, textMaxLength, size).NoInput? <==>
              modelType.Some? && modelType.value != "clip" && modelType.value != "audio"
    ensures modelType.None? ==> GenerateMultimodalInput(modelType, textMaxLength, size) == ClipInput(ClipFallbackText(textMaxLength, size))
    ensures GenerateMultimodalInput(modelType, textMaxLength, size).AudioInput? <==> modelType == Some("audio")
  {
  }
}
