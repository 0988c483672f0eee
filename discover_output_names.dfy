// The output-name discovery script: the fixed token inputs it sends per
// model, the shape of a returned tensor, and how an inference response is
// classified and recorded. The HTTP call is left out: the parsed response
// is a parameter. Vision pixel values are seeded random numbers and are not
// modelled.
module DiscoverOutputNames {
  import opened Json
  import opened Text
  import opened MetricsFile
  import TensorShape

  type Inputs = seq<(string, seq<int>)>

  /** generate_nlp_input: fixed token lists per known model, a three-token list otherwise. */
  function NlpInput(modelName: string, maxLen: int): Inputs {
    if modelName == "gpt2" then [("input_ids", [15496, 11, 314, 716, 257, 3303] + Repeat(2746, maxLen - 6))]
    else if modelName == "bert" then
      [("input_ids", [101] + Repeat(7592, maxLen - 2) + [102]), ("attention_mask", Repeat(1, maxLen)),
       ("token_type_ids", Repeat(0, maxLen))]
    else if modelName == "roberta" then [("input_ids", [0] + Repeat(31414, maxLen - 2) + [2])]
    else if modelName == "distilbert" then
      [("input_ids", [101] + Repeat(7592, maxLen - 2) + [102]), ("attention_mask", Repeat(1, maxLen))]
    else if modelName == "albert" then
      [("input_ids", [2] + Repeat(13, maxLen - 2) + [3]), ("attention_mask", Repeat(1, maxLen)),
       ("token_type_ids", Repeat(0, maxLen))]
    else if modelName == "sentence-transformers" then
      [("input_ids", [101] + Repeat(7592, maxLen - 2) + [102]), ("attention_mask", Repeat(1, maxLen))]
    else if modelName == "t5" then
      [("input_ids", [8774, 6, 26, 21, 408, 8612, 2495, 5, 1] + Repeat(0, maxLen - 9)),
       ("attention_mask", Repeat(1, 9) + Repeat(0, maxLen - 9)),
       ("decoder_input_ids", [0] + Repeat(320, maxLen - 1))]
    else [("input_ids", [101, 7592, 102])]
  }

  /**
   * gpt2's ids have length maxLen once maxLen >= 6; for bert, roberta,
   * distilbert, albert and sentence-transformers every list has length
   * maxLen once maxLen >= 2; an unknown model gets [101, 7592, 102].
   */
  lemma NlpInputLengths(modelName: string, maxLen: int)
    ensures modelName == "gpt2" && maxLen >= 6 ==> |NlpInput(modelName, maxLen)[0].1| == maxLen
    ensures modelName in ["bert", "roberta", "distilbert", "albert", "sentence-transformers"] && maxLen >= 2 ==>
              forall i :: 0 <= i < |NlpInput(modelName, maxLen)| ==> |NlpInput(modelName, maxLen)[i].1| == maxLen
    ensures modelName !in ["gpt2", "bert", "roberta", "distilbert", "albert", "sentence-transformers", "t5"] ==>
              NlpInput(modelName, maxLen) == [("input_ids", [101, 7592, 102])]
  {
  }

  /** t5's mask is 9 ones then maxLen - 9 zeros, its ids 9 tokens then zero padding, and its decoder ids start at 0. */
  lemma T5Input(maxLen: int)
    requires maxLen >= 9
    ensures var r := NlpInput("t5", maxLen);
      && Keys(r) == ["input_ids", "attention_mask", "decoder_input_ids"]
      && |r[0].1| == maxLen && |r[1].1| == maxLen && |r[2].1| == maxLen
      && (forall i :: 0 <= i < maxLen ==> r[1].1[i] == (if i < 9 then 1 else 0))
      && (forall i :: 9 <= i < maxLen ==> r[0].1[i] == 0)
      && r[2].1[0] == 0
  {
    var r := NlpInput("t5", maxLen);
    var mask := Repeat(1, 9) + Repeat(0, maxLen - 9);
    assert r[1].1 == mask;
    assert forall i :: 9 <= i < maxLen ==> mask[i] == Repeat(0, maxLen - 9)[i - 9];
    var ids := [8774, 6, 26, 21, 408, 8612, 2495, 5, 1] + Repeat(0, maxLen - 9);
    assert r[0].1 == ids;
    assert forall i :: 9 <= i < maxLen ==> ids[i] == Repeat(0, maxLen - 9)[i - 9];
  }

  /** The token part of the CLIP input sent for a multimodal model. */
  const ClipIds: seq<int> := [49406] + Repeat(320, 75) + [49407]
  const ClipMask: seq<int> := Repeat(1, 77)

  lemma ClipInputLengths()
    ensures |ClipIds| == |ClipMask| == 77
    ensures ClipIds[0] == 49406 && ClipIds[76] == 49407
  {
  }

  /** The tokens sent for a category: None for vision, whose only input is random pixel data. */
  function TokenInputFor(category: string, modelName: string): Option<Inputs> {
    if category == "vision" then None
    else if category == "multimodal" then Some([("input_ids", ClipIds), ("attention_mask", ClipMask)])
    else Some(NlpInput(modelName, 16))
  }

  /** Lengths of the lists met while descending through first elements, stopping at an empty list. */
  function DiscoveryShape(data: Json): seq<nat> {
    match data
    case JList(xs) => if xs == [] then [] else [|xs|] + DiscoveryShape(xs[0])
    case _ => []
  }

  /** get_tensor_shape. */
  method GetTensorShape(data: Json) returns (shape: seq<nat>)
    ensures shape == DiscoveryShape(data)
  {
    shape := [];
    var current := data;
    while current.JList? && current.items != []
      invariant shape + DiscoveryShape(current) == DiscoveryShape(data)
      decreases current
    {
      shape := shape + [|current.items|];
      assert current.items[0] in current.items;
      current := current.items[0];
    }
  }

  /**
   * Every recorded dimension is at least 1, and the shape is the one the
   * validator computes with its final 0 (recorded for an empty list) dropped.
   */
  lemma {:induction false} DiscoveryShapeProperties(data: Json)
    ensures forall i :: 0 <= i < |DiscoveryShape(data)| ==> DiscoveryShape(data)[i] >= 1
    ensures var s := TensorShape.Shape(data);
      DiscoveryShape(data) == if s != [] && s[|s| - 1] == 0 then s[..|s| - 1] else s
  {
    match data
    case JList(xs) =>
      if xs != [] {
        assert xs[0] in xs;
        DiscoveryShapeProperties(xs[0]);
        var s := TensorShape.Shape(xs[0]);
        if s != [] && s[|s| - 1] == 0 {
          assert ([|xs|] + s)[..|s|] == [|xs|] + s[..|s| - 1];
        }
      }
    case _ =>
  }

  /** The result record of discover_model_outputs for one model. */
  datatype Discovery = Discovery(
    modelName: string,
    axonId: string,
    category: string,
    outputs: seq<(string, seq<nat>)>,
    status: string,
    error: Option<Json>,
    note: Option<string>,
    inferenceTimeUs: Option<Json>)

  /** The outcome: a record, or the exception an `outputs` value without items raises. */
  datatype Outcome = Recorded(result: Discovery) | OutputsNotAnObject

  const NoOutputsNote := "Response did not include outputs (include_outputs may not be supported)"

  /** The output shapes as the loop assigns them, one per name. */
  function OutputShapes(fields: seq<(string, Json)>): seq<(string, seq<nat>)> {
    if fields == [] then []
    else Put(OutputShapes(fields[..|fields| - 1]), fields[|fields| - 1].0, DiscoveryShape(fields[|fields| - 1].1))
  }

  /** discover_model_outputs after the inference call, for the parsed response. */
  function DiscoverySpec(modelName: string, axonId: string, category: string, response: Obj): Outcome {
    var base := Discovery(modelName, axonId, category, [], "unknown", None, None, None);
    var time := Some(GetOr(response, "inference_time_us", JInt(0)));
    if HasKey(response, "error") then Recorded(base.(status := "error", error := Some(Get(response, "error"))))
    else if Get(response, "status") != JStr("success") then
      Recorded(base.(status := "inference_failed", error := Some(GetOr(response, "message", JStr("Unknown error")))))
    else if HasKey(response, "outputs") then
      match Get(response, "outputs")
      case JObj(fields) => Recorded(base.(status := "success", outputs := OutputShapes(fields), inferenceTimeUs := time))
      case _ => OutputsNotAnObject
    else Recorded(base.(status := "no_outputs", note := Some(NoOutputsNote), inferenceTimeUs := time))
  }

  method DiscoverModelOutputs(modelName: string, axonId: string, category: string, response: Obj) returns (outcome: Outcome)
    ensures outcome == DiscoverySpec(modelName, axonId, category, response)
  {
    var result := Discovery(modelName, axonId, category, [], "unknown", None, None, None);
    if HasKey(response, "error") {
      result := result.(status := "error", error := Some(Get(response, "error")));
      return Recorded(result);
    }
    if Get(response, "status") != JStr("success") {
      result := result.(status := "inference_failed", error := Some(GetOr(response, "message", JStr("Unknown error"))));
      return Recorded(result);
    }
    if HasKey(response, "outputs") {
      var outputs := Get(response, "outputs");
      if !outputs.JObj? {
        return OutputsNotAnObject;
      }
      result := result.(status := "success");
      var fields := outputs.fields;
      var shapes: seq<(string, seq<nat>)> := [];
      var i := 0;
      while i < |fields|
        invariant 0 <= i <= |fields|
        invariant shapes == OutputShapes(fields[..i])
      {
        assert fields[..i + 1][..i] == fields[..i];
        var shape := GetTensorShape(fields[i].1);
        shapes := Put(shapes, fields[i].0, shape);
        i := i + 1;
      }
      assert fields[..i] == fields;
      result := result.(outputs := shapes);
    } else {
      result := result.(status := "no_outputs", note := Some(NoOutputsNote));
    }
    result := result.(inferenceTimeUs := Some(GetOr(response, "inference_time_us", JInt(0))));
    outcome := Recorded(result);
  }

  /** Every output name of the response gets a shape, and only those names. */
  lemma {:induction false} OutputShapeKeys(fields: seq<(string, Json)>)
    ensures forall k :: HasKey(OutputShapes(fields), k) <==> HasKey(fields, k)
  {
    if fields != [] {
      var init := fields[..|fields| - 1];
      var last := fields[|fields| - 1];
      OutputShapeKeys(init);
      forall k
        ensures HasKey(OutputShapes(fields), k) <==> HasKey(fields, k)
      {
        assert fields == init + [last];
        HasKeyAppend(init, [last], k);
        assert HasKey([last], k) <==> last.0 == k;
      }
    }
  }

  /** Each name's recorded shape is the shape of the last tensor of that name, with dimensions of at least 1. */
  lemma {:induction false} OutputShapeValues(fields: seq<(string, Json)>, k: string)
    ensures Find(OutputShapes(fields), k).Some? ==>
      && LastValue(fields, k).Some?
      && Find(OutputShapes(fields), k) == Some(DiscoveryShape(LastValue(fields, k).value))
      && forall d :: d in Find(OutputShapes(fields), k).value ==> d >= 1
  {
    if fields != [] {
      var last := fields[|fields| - 1];
      OutputShapeValues(fields[..|fields| - 1], k);
      DiscoveryShapeProperties(last.1);
    }
  }

  /**
   * The classification: "error" exactly when the response has an error key;
   * otherwise "inference_failed" exactly when its status is not "success";
   * otherwise "success" with the output shapes, or "no_outputs". The
   * inference time is recorded only on those last two paths.
   */
  lemma DiscoveryStatus(modelName: string, axonId: string, category: string, response: Obj)
    ensures var o := DiscoverySpec(modelName, axonId, category, response);
      && (o.Recorded? && o.result.status == "error" <==> HasKey(response, "error"))
      && (o.Recorded? && o.result.status == "inference_failed" <==>
            !HasKey(response, "error") && Get(response, "status") != JStr("success"))
      && (o.Recorded? && o.result.status == "success" <==>
            !HasKey(response, "error") && Get(response, "status") == JStr("success") && Get(response, "outputs").JObj?
            && HasKey(response, "outputs"))
      && (o.OutputsNotAnObject? <==>
            !HasKey(response, "error") && Get(response, "status") == JStr("success") && HasKey(response, "outputs")
            && !Get(response, "outputs").JObj?)
      && (o.Recorded? ==> (o.result.inferenceTimeUs.Some? <==> o.result.status in ["success", "no_outputs"]))
      && (o.Recorded? ==> o.result.modelName == modelName && o.result.axonId == axonId && o.result.category == category)
  {
  }
}
