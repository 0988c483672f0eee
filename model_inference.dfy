// The fixed token inputs the Go test runner sends for an inference test. The
// request itself (JSON encoding and the HTTP call) is not part of the model.
module ModelInference {

  /** An input payload: input name to token list. */
  type Payload = map<string, seq<int>>

  const GptSmall := [15496, 11, 337, 43, 48, 2640, 0]
  const GptLarge := [15496, 11, 337, 43, 48, 2640, 0, 15496, 11, 337, 43, 48, 2640, 0, 15496, 11]
  const BertSmall := [101, 7592, 2088, 102]
  const BertLarge := [101, 7592, 2088, 102, 101, 7592, 2088, 102, 101, 7592, 2088, 102, 101, 7592, 2088, 102]
  const RobertaSmall := [0, 31414, 232, 328, 2]
  const RobertaLarge := [0, 31414, 232, 328, 2, 0, 31414, 232, 328, 2, 0, 31414, 232, 328, 2, 0]
  const T5Small := [37, 1962, 10]
  const T5Large := [37, 1962, 10, 37, 1962, 10, 37, 1962, 10, 37, 1962, 10, 37, 1962, 10, 37]
  const DefaultSmall := [1, 2, 3]
  const DefaultLarge := [1, 2, 3, 4, 5, 6, 7, 8, 9, 10, 11, 12, 13, 14, 15, 16]

  /** The token ids for a model name and size. */
  function InputIds(modelId: string, large: bool): seq<int> {
    if modelId == "gpt2" then (if large then GptLarge else GptSmall)
    else if modelId == "bert" then (if large then BertLarge else BertSmall)
    else if modelId == "roberta" then (if large then RobertaLarge else RobertaSmall)
    else if modelId == "t5" then (if large then T5Large else T5Small)
    else if large then DefaultLarge else DefaultSmall
  }

  function Constant(x: int, n: nat): (r: seq<int>)
    ensures |r| == n && forall i :: 0 <= i < n ==> r[i] == x
  {
    seq(n, _ => x)
  }

  /** The payload generateTestInput returns: BERT gets a mask and token types, every other model ids only. */
  function TestInput(modelId: string, large: bool): Payload {
    var ids := InputIds(modelId, large);
    if modelId == "bert" then
      map["input_ids" := ids, "attention_mask" := Constant(1, |ids|), "token_type_ids" := Constant(0, |ids|)]
    else map["input_ids" := ids]
  }

  /**
   * generateTestInput. It never reports an error and does not look at the
   * model type; the BERT attention mask is filled with ones in place.
   */
  method GenerateTestInput(modelId: string, modelType: string, large: bool) returns (input: Payload, failed: bool)
    ensures !failed
    ensures input == TestInput(modelId, large)
  {
    var ids := InputIds(modelId, large);
    failed := false;
    if modelId == "bert" {
      var attentionMask := new int[|ids|];
      var i := 0;
      while i < attentionMask.Length
        invariant 0 <= i <= attentionMask.Length
        invariant forall j :: 0 <= j < i ==> attentionMask[j] == 1
      {
        attentionMask[i] := 1;
        i := i + 1;
      }
      assert attentionMask[..] == Constant(1, |ids|);
      var tokenTypeIds := Constant(0, |ids|);
      input := map["input_ids" := ids, "attention_mask" := attentionMask[..], "token_type_ids" := tokenTypeIds];
    } else {
      input := map["input_ids" := ids];
    }
  }

  /**
   * Sizes per model: gpt2 7/16, bert 4/16, roberta 5/16, t5 and any other
   * name 3/16; only BERT has extra inputs, a mask of ones and token types of
   * zeros as long as its ids.
   */
  lemma TestInputShapes(modelId: string, large: bool)
    ensures var p := TestInput(modelId, large);
      && "input_ids" in p
      && |p["input_ids"]| == (if large then 16
                              else if modelId == "gpt2" then 7
                              else if modelId == "bert" then 4
                              else if modelId == "roberta" then 5
                              else 3)
      && (modelId == "bert" <==> p.Keys == {"input_ids", "attention_mask", "token_type_ids"})
      && (modelId != "bert" <==> p.Keys == {"input_ids"})
      && (modelId == "bert" ==>
            && |p["attention_mask"]| == |p["input_ids"]| == |p["token_type_ids"]|
            && (forall i :: 0 <= i < |p["attention_mask"]| ==> p["attention_mask"][i] == 1)
            && (forall i :: 0 <= i < |p["token_type_ids"]| ==> p["token_type_ids"][i] == 0))
  {
    var p := TestInput(modelId, large);
    if modelId == "bert" {
      assert "attention_mask" in p.Keys && "attention_mask" !in {"input_ids"};
    } else {
      assert p.Keys == {"input_ids"};
    }
  }
}
