// The individual golden-data checks of scripts/validate-inference.py
// (`_validate_*`). Each takes the test's name, its `expected` mapping and
// the output mapping, and yields either a ValidationResult or the Python
// exception the check would raise (which the dispatchers in module Engine
// turn into a failed result or let escape).
module Validators {
  import opened Json
  import opened Text
  import opened Ranking
  import opened TensorShape
  import opened ValidationResults

  /**
   * Python `name in d` followed by `d[name]`: a string is looked up; other
   * hashable values are never keys of a JSON object; a list or dict is
   * unhashable and raises TypeError.
   */
  function Lookup(o: Obj, name: Json): (r: Result<Option<Json>>)
    ensures name.JStr? ==> r == Ok(Find(o, name.s))
  {
    match name
    case JStr(s) => Ok(Find(o, s))
    case JList(_) => Err(TypeError)
    case JObj(_) => Err(TypeError)
    case _ => Ok(None)
  }

  predicate AllNumbers(xs: seq<Json>) {
    forall i :: 0 <= i < |xs| ==> IsNumber(xs[i])
  }

  function ScoreKeys(xs: seq<Json>): (ks: seq<real>)
    ensures |ks| == |xs|
    ensures forall i :: 0 <= i < |xs| && IsNumber(xs[i]) ==> ks[i] == NumValue(xs[i])
  {
    if xs == [] then [] else [if IsNumber(xs[0]) then NumValue(xs[0]) else 0.0] + ScoreKeys(xs[1..])
  }

  /**
   * `indexed = list(enumerate(xs)); indexed.sort(key=lambda x: x[1], reverse=True)`:
   * the positions by descending score, ties by position. Sorting compares
   * only when there are two or more elements.
   */
  function SortedPositions(xs: seq<Json>): Result<seq<nat>> {
    if AllNumbers(xs) || |xs| <= 1 then Ok(Rank(ScoreKeys(xs))) else Err(TypeError)
  }

  /** `[idx for idx, _ in indexed[:top_k]]`. */
  function TopPositions(xs: seq<Json>, topK: Json): Result<seq<nat>> {
    match SortedPositions(xs)
    case Err(e) => Err(e)
    case Ok(r) => Slice(r, topK)
  }

  lemma TopPositionsInRange(xs: seq<Json>, topK: Json)
    ensures TopPositions(xs, topK).Ok? ==>
      forall i :: 0 <= i < |TopPositions(xs, topK).value| ==> TopPositions(xs, topK).value[i] < |xs|
  {
    RankIsSortedPermutation(ScoreKeys(xs));
  }

  /** The top-K positions of a flat list of numbers are its top-K ranking. */
  lemma TopPositionsOfNumbers(xs: seq<Json>, k: nat)
    requires AllNumbers(xs)
    ensures TopPositions(xs, JInt(k)) == Ok(TopK(ScoreKeys(xs), k))
  {
  }

  function IndicesJson(ns: seq<nat>): Json {
    JList(IntList(ns))
  }

  /** Ranked indices of `logits` when it is a list, none otherwise. */
  function RankedIndices(logits: Json, topK: Json): Result<seq<nat>> {
    if logits.JList? then TopPositions(logits.items, topK) else Ok([])
  }

  // ---------------------------------------------------------------- output_shape

  function OutputShape(name: Json, expected: Obj, output: Obj): Result<ValidationResult> {
    var outputName := GetOr(expected, "output_name", JStr("logits"));
    var expectedShape := Get(expected, "expected_shape");
    match Lookup(output, outputName)
    case Err(e) => Err(e)
    case Ok(None) =>
      Ok(Failed(name, OutputNotFoundInResponse(outputName), [("available_outputs", KeysJson(output))]))
    case Ok(Some(data)) =>
      var actual := Shape(data);
      var details := [("actual_shape", ShapeJson(actual)), ("expected_shape", expectedShape)];
      if ShapeEquals(expectedShape, actual) then Ok(ValidationResult(name, true, ShapeMatches(actual), details))
      else Ok(Failed(name, ShapeMismatch(expectedShape, actual), details))
  }

  /**
   * `output_shape` on a named output: fails listing the available names when
   * the output is absent, otherwise passes iff its shape equals the expected
   * one element for element.
   */
  lemma OutputShapeVerdict(name: Json, expected: Obj, output: Obj, outputName: string)
    requires GetOr(expected, "output_name", JStr("logits")) == JStr(outputName)
    ensures OutputShape(name, expected, output).Ok?
    ensures !HasKey(output, outputName) ==>
      OutputShape(name, expected, output).value == Failed(name, OutputNotFoundInResponse(JStr(outputName)), [("available_outputs", KeysJson(output))])
    ensures HasKey(output, outputName) ==>
      (OutputShape(name, expected, output).value.passed <==>
       ShapeEquals(Get(expected, "expected_shape"), Shape(Find(output, outputName).value)))
  {
  }

  // ---------------------------------------------------------- multi_output_shape

  /** The pass flag and details entry for one configured output. */
  function ShapeEntry(output: Obj, outputName: string, config: Json): Result<(bool, Json)> {
    if !config.JObj? then Err(AttributeError)
    else
      var expectedShape := Get(config.fields, "expected_shape");
      match Find(output, outputName)
      case None => Ok((false, JObj([("error", JStr("not found"))])))
      case Some(data) =>
        var actual := Shape(data);
        var ok := ShapeEquals(expectedShape, actual);
        Ok((ok, JObj([("expected", expectedShape), ("actual", ShapeJson(actual)), ("passed", JBool(ok))])))
  }

  /** One iteration: fold one configured output into `all_passed` and `details`. */
  function MultiShapeStep(acc: Result<(bool, Obj)>, output: Obj, config: (string, Json)): Result<(bool, Obj)> {
    match acc
    case Err(e) => Err(e)
    case Ok((allPassed, details)) =>
      match ShapeEntry(output, config.0, config.1)
      case Err(e) => Err(e)
      case Ok(entry) => Ok((allPassed && entry.0, Put(details, config.0, entry.1)))
  }

  /** `all_passed` and `details` after the loop has seen `configs`. */
  function MultiShape(output: Obj, configs: seq<(string, Json)>): Result<(bool, Obj)> {
    if configs == [] then Ok((true, []))
    else MultiShapeStep(MultiShape(output, configs[..|configs| - 1]), output, configs[|configs| - 1])
  }

  /** The loop of `_validate_multi_output_shape`. */
  method MultiShapeLoop(output: Obj, configs: seq<(string, Json)>) returns (r: Result<(bool, Obj)>)
    ensures r == MultiShape(output, configs)
  {
    var allPassed := true;
    var details: Obj := [];
    var i := 0;
    while i < |configs|
      invariant 0 <= i <= |configs|
      invariant MultiShape(output, configs[..i]) == Ok((allPassed, details))
    {
      var (outputName, config) := configs[i];
      assert configs[..i + 1][..i] == configs[..i];
      assert MultiShape(output, configs[..i + 1]) == MultiShapeStep(Ok((allPassed, details)), output, configs[i]);
      var entry := ShapeEntry(output, outputName, config);
      if entry.Err? {
        MultiShapeErrorStays(output, configs, i + 1);
        assert configs[..|configs|] == configs;
        return Err(entry.exc);
      }
      allPassed := allPassed && entry.value.0;
      details := Put(details, outputName, entry.value.1);
      i := i + 1;
    }
    assert configs[..i] == configs;
    return Ok((allPassed, details));
  }

  lemma {:induction false} MultiShapeErrorStays(output: Obj, configs: seq<(string, Json)>, i: nat)
    requires i <= |configs| && MultiShape(output, configs[..i]).Err?
    ensures MultiShape(output, configs).Err?
    ensures MultiShape(output, configs).exc == MultiShape(output, configs[..i]).exc
    decreases |configs| - i
  {
    if i < |configs| {
      assert configs[..i + 1][..i] == configs[..i];
      MultiShapeErrorStays(output, configs, i + 1);
    } else {
      assert configs[..i] == configs;
    }
  }

  predicate EntryPasses(output: Obj, entry: (string, Json)) {
    entry.1.JObj? && HasKey(output, entry.0)
    && ShapeEquals(Get(entry.1.fields, "expected_shape"), Shape(Find(output, entry.0).value))
  }

  /**
   * When every configuration is a mapping the check does not raise, and it
   * passes iff every configured output is present and shape-equal.
   */
  lemma {:induction false} MultiShapeVerdict(output: Obj, configs: seq<(string, Json)>)
    requires forall i :: 0 <= i < |configs| ==> configs[i].1.JObj?
    ensures MultiShape(output, configs).Ok?
    ensures MultiShape(output, configs).value.0 <==> forall i :: 0 <= i < |configs| ==> EntryPasses(output, configs[i])
  {
    if configs != [] {
      var front := configs[..|configs| - 1];
      assert forall i :: 0 <= i < |front| ==> front[i] == configs[i];
      MultiShapeVerdict(output, front);
    }
  }

  lemma HasKeyFrontLast<V>(m: seq<(string, V)>, k: string)
    requires m != []
    ensures HasKey(m, k) <==> HasKey(m[..|m| - 1], k) || k == m[|m| - 1].0
  {
    var front := m[..|m| - 1];
    if HasKey(m, k) && k != m[|m| - 1].0 {
      var i :| 0 <= i < |m| && m[i].0 == k;
      assert front[i].0 == k;
    }
    if HasKey(front, k) {
      var i :| 0 <= i < |front| && front[i].0 == k;
      assert m[i].0 == k;
    }
  }

  /** The details of a non-raising check hold one entry per configured output name. */
  lemma {:induction false} MultiShapeKeys(output: Obj, configs: seq<(string, Json)>)
    requires MultiShape(output, configs).Ok?
    ensures forall k :: HasKey(MultiShape(output, configs).value.1, k) <==> HasKey(configs, k)
  {
    if configs != [] {
      var front := configs[..|configs| - 1];
      MultiShapeKeys(output, front);
      forall k
        ensures HasKey(configs, k) <==> HasKey(front, k) || k == configs[|configs| - 1].0
      {
        HasKeyFrontLast(configs, k);
      }
    }
  }

  function MultiOutputShape(name: Json, expected: Obj, output: Obj): Result<ValidationResult> {
    var config := GetOr(expected, "outputs", JObj([]));
    if !config.JObj? then Err(AttributeError)
    else
      match MultiShape(output, config.fields)
      case Err(e) => Err(e)
      case Ok((allPassed, details)) =>
        Ok(ValidationResult(name, allPassed, if allPassed then AllShapesMatch else SomeShapesMismatch, details))
  }

  // -------------------------------------------------------------- top_k_contains

  /**
   * Lines 429-435: the score vector `top_k_contains` ranks when the output is
   * nested: the row at the mask position (the last row when the position is
   * not below the row count), or for causal models the last row when it is
   * itself a list and the first batch item otherwise.
   */
  function TopKContainsScores(logits: Json, maskPosition: Json): Result<Json> {
    if logits.JList? && logits.items != [] && logits.items[0].JList? then
      var rows := logits.items[0].items;
      if maskPosition != JNull then
        match Greater(JInt(|rows|), maskPosition)
        case Err(e) => Err(e)
        case Ok(inRange) => if inRange then Index(rows, maskPosition) else At(rows, -1)
      else
        match At(rows, -1)
        case Err(e) => Err(e)
        case Ok(last) => Ok(if last.JList? then last else logits.items[0])
    else Ok(logits)
  }

  function TopKContains(name: Json, expected: Obj, output: Obj): Result<ValidationResult> {
    var outputName := GetOr(expected, "output_name", JStr("logits"));
    var topK := GetOr(expected, "top_k", JInt(5));
    var expectedIndices := GetOr(expected, "expected_class_indices", JList([]));
    var maskPosition := Get(expected, "mask_position");
    match Lookup(output, outputName)
    case Err(e) => Err(e)
    case Ok(None) => Ok(Failed(name, OutputNotFound(outputName), []))
    case Ok(Some(raw)) =>
      match TopKContainsScores(raw, maskPosition)
      case Err(e) => Err(e)
      case Ok(logits) =>
        match RankedIndices(logits, topK)
        case Err(e) => Err(e)
        case Ok(top) =>
          if Truthy(expectedIndices) then
            match Iterate(expectedIndices)
            case Err(e) => Err(e)
            case Ok(candidates) =>
              var found := MembersOf(candidates, top);
              Ok(ValidationResult(name, found != [], FoundExpectedClasses(|found|, |candidates|, topK),
                [("top_k_indices", IndicesJson(top)), ("expected_indices", expectedIndices), ("found_indices", JList(found))]))
          else Ok(ValidationResult(name, true, GotTopK(topK), [("top_k_indices", IndicesJson(top))]))
  }

  /**
   * On a flat list of numeric scores with an integer top_k, `top_k_contains`
   * passes iff some expected index is among the top-K ranked positions, and
   * always passes when the configured indices are absent or falsy (None, 0,
   * "", [] or {}).
   */
  lemma TopKContainsVerdict(name: Json, expected: Obj, output: Obj, outputName: string, scores: seq<Json>, k: nat)
    requires GetOr(expected, "output_name", JStr("logits")) == JStr(outputName)
    requires Find(output, outputName) == Some(JList(scores))
    requires AllNumbers(scores) && (scores == [] || !scores[0].JList?)
    requires GetOr(expected, "top_k", JInt(5)) == JInt(k)
    ensures !Truthy(GetOr(expected, "expected_class_indices", JList([]))) ==>
      TopKContains(name, expected, output).Ok? && TopKContains(name, expected, output).value.passed
    ensures forall wanted: seq<Json> :: GetOr(expected, "expected_class_indices", JList([])) == JList(wanted) && wanted != [] ==>
      TopKContains(name, expected, output).Ok? &&
      (TopKContains(name, expected, output).value.passed <==>
       exists x, n :: x in wanted && n in TopK(ScoreKeys(scores), k) && EqInt(x, n))
  {
    TopPositionsOfNumbers(scores, k);
    forall wanted: seq<Json> | GetOr(expected, "expected_class_indices", JList([])) == JList(wanted) && wanted != []
      ensures TopKContains(name, expected, output).Ok?
      ensures TopKContains(name, expected, output).value.passed <==>
        exists x, n :: x in wanted && n in TopK(ScoreKeys(scores), k) && EqInt(x, n)
    {
      var found := MembersOf(wanted, TopK(ScoreKeys(scores), k));
      if found != [] {
        assert found[0] in found;
      }
    }
  }

  // ---------------------------------------------------------- top_k_logits_check

  /** Lines 486-489: the row at `position` when it is not negative, otherwise the last row. */
  function TopKLogitsScores(logits: Json, position: Json): Result<Json> {
    if logits.JList? && logits.items != [] && logits.items[0].JList? then
      var rows := logits.items[0].items;
      match AtLeast(position, JInt(0))
      case Err(e) => Err(e)
      case Ok(nonNegative) => if nonNegative then Index(rows, position) else At(rows, -1)
    else Ok(logits)
  }

  function TopKLogits(name: Json, expected: Obj, output: Obj): Result<ValidationResult> {
    var outputName := GetOr(expected, "output_name", JStr("logits"));
    var position := GetOr(expected, "position", JInt(-1));
    var topK := GetOr(expected, "top_k", JInt(10));
    var expectedTokens := GetOr(expected, "expected_tokens", JList([]));
    match Lookup(output, outputName)
    case Err(e) => Err(e)
    case Ok(None) => Ok(Failed(name, OutputNotFound(outputName), []))
    case Ok(Some(raw)) =>
      match TopKLogitsScores(raw, position)
      case Err(e) => Err(e)
      case Ok(logits) =>
        match RankedIndices(logits, topK)
        case Err(e) => Err(e)
        case Ok(top) =>
          match Iterate(expectedTokens)
          case Err(e) => Err(e)
          case Ok(tokens) =>
            var found := MembersOf(tokens, top);
            Ok(ValidationResult(name, found != [], ExpectedTokensFound(found != [], topK),
              [("top_k_indices", IndicesJson(top)), ("expected_tokens", expectedTokens), ("found_tokens", JList(found))]))
  }

  /**
   * A position past the end of the sequence raises IndexError (which the
   * dispatchers turn into a failed result), and with no expected tokens the
   * check fails.
   */
  lemma TopKLogitsEdges(name: Json, expected: Obj, output: Obj, outputName: string, rows: seq<Json>, p: nat)
    requires GetOr(expected, "output_name", JStr("logits")) == JStr(outputName)
    requires Find(output, outputName) == Some(JList([JList(rows)]))
    ensures GetOr(expected, "position", JInt(-1)) == JInt(p) && p >= |rows| ==>
      TopKLogits(name, expected, output) == Err(IndexError)
    ensures GetOr(expected, "expected_tokens", JList([])) == JList([]) && TopKLogits(name, expected, output).Ok? ==>
      !TopKLogits(name, expected, output).value.passed
  {
  }

  /**
   * On a [batch, seq, vocab] output with numeric scores, `top_k_logits_check`
   * ranks the row at `position` (the last row for a negative position) and
   * passes iff some expected token is among that row's top-K; found_tokens
   * are the expected tokens in the top-K, in configured order.
   */
  lemma TopKLogitsVerdict(name: Json, expected: Obj, output: Obj, outputName: string, rows: seq<Json>, p: int,
                          scores: seq<Json>, tokens: seq<Json>, k: nat)
    requires GetOr(expected, "output_name", JStr("logits")) == JStr(outputName)
    requires Find(output, outputName) == Some(JList([JList(rows)]))
    requires GetOr(expected, "position", JInt(-1)) == JInt(p)
    requires rows != [] && p < |rows|
    requires (if p >= 0 then rows[p] else rows[|rows| - 1]) == JList(scores)
    requires AllNumbers(scores)
    requires GetOr(expected, "top_k", JInt(10)) == JInt(k)
    requires GetOr(expected, "expected_tokens", JList([])) == JList(tokens)
    ensures TopKLogits(name, expected, output).Ok?
    ensures var top := TopK(ScoreKeys(scores), k);
      && (TopKLogits(name, expected, output).value.passed <==> exists x, n :: x in tokens && n in top && EqInt(x, n))
      && TopKLogits(name, expected, output).value.details ==
           [("top_k_indices", IndicesJson(top)), ("expected_tokens", JList(tokens)), ("found_tokens", JList(MembersOf(tokens, top)))]
  {
    TopPositionsOfNumbers(scores, k);
    var found := MembersOf(tokens, TopK(ScoreKeys(scores), k));
    if found != [] {
      assert found[0] in found;
    }
  }

  // --------------------------------------------------------- generation_contains

  const TextKeys: seq<string> := ["generated_text", "text", "output", "response", "content"]

  /** The value under the first of `keys` present in `output`. */
  function FirstPresent(output: Obj, keys: seq<string>): (r: Option<Json>)
    ensures r.None? <==> forall i :: 0 <= i < |keys| ==> !HasKey(output, keys[i])
    ensures r.Some? ==> exists i :: 0 <= i < |keys| && Find(output, keys[i]) == r
                          && forall j :: 0 <= j < i ==> !HasKey(output, keys[j])
  {
    if keys == [] then None
    else match Find(output, keys[0])
      case Some(v) => Some(v)
      case None =>
        var r := FirstPresent(output, keys[1..]);
        assert forall i :: 1 <= i < |keys| ==> keys[i] == keys[1..][i - 1];
        r
  }

  /** A list value stands for its first element ("" when empty); then str(). */
  function GeneratedText(v: Json): string {
    var first := if v.JList? then (if v.items == [] then JStr("") else v.items[0]) else v;
    PyStr(first)
  }

  /** Whether one keyword occurs; a keyword that is not a string raises. */
  function KeywordOccurs(keyword: Json, text: string, caseInsensitive: bool): Result<bool> {
    match keyword
    case JStr(k) => Ok(if caseInsensitive then Contains(Lower(text), Lower(k)) else Contains(text, k))
    case _ => Err(if caseInsensitive then AttributeError else TypeError)
  }

  /** `found_keywords` after the loop has seen `keywords`. */
  function FoundKeywords(keywords: seq<Json>, text: string, caseInsensitive: bool): Result<seq<Json>> {
    if keywords == [] then Ok([])
    else
      match FoundKeywords(keywords[..|keywords| - 1], text, caseInsensitive)
      case Err(e) => Err(e)
      case Ok(found) =>
        var k := keywords[|keywords| - 1];
        match KeywordOccurs(k, text, caseInsensitive)
        case Err(e) => Err(e)
        case Ok(b) => Ok(if b then found + [k] else found)
  }

  lemma {:induction false} FoundKeywordsErrorStays(keywords: seq<Json>, text: string, ci: bool, i: nat)
    requires i <= |keywords| && FoundKeywords(keywords[..i], text, ci).Err?
    ensures FoundKeywords(keywords, text, ci) == FoundKeywords(keywords[..i], text, ci)
    decreases |keywords| - i
  {
    if i < |keywords| {
      assert keywords[..i + 1][..i] == keywords[..i];
      FoundKeywordsErrorStays(keywords, text, ci, i + 1);
    } else {
      assert keywords[..i] == keywords;
    }
  }

  /** The keyword loop of `_validate_generation_contains`. */
  method CollectKeywords(keywords: seq<Json>, text: string, caseInsensitive: bool) returns (r: Result<seq<Json>>)
    ensures r == FoundKeywords(keywords, text, caseInsensitive)
  {
    var checkText := if caseInsensitive then Lower(text) else text;
    var found: seq<Json> := [];
    var i := 0;
    while i < |keywords|
      invariant 0 <= i <= |keywords|
      invariant FoundKeywords(keywords[..i], text, caseInsensitive) == Ok(found)
    {
      var keyword := keywords[i];
      assert keywords[..i + 1][..i] == keywords[..i];
      if !keyword.JStr? {
        FoundKeywordsErrorStays(keywords, text, caseInsensitive, i + 1);
        return Err(if caseInsensitive then AttributeError else TypeError);
      }
      var checkKeyword := if caseInsensitive then Lower(keyword.s) else keyword.s;
      if Contains(checkText, checkKeyword) {
        found := found + [keyword];
      }
      i := i + 1;
    }
    assert keywords[..i] == keywords;
    return Ok(found);
  }

  /**
   * With string keywords, `found_keywords` is exactly the keywords that occur
   * in the text, in their configured order.
   */
  lemma {:induction false} FoundKeywordsExactly(keywords: seq<Json>, text: string, ci: bool)
    requires forall i :: 0 <= i < |keywords| ==> keywords[i].JStr?
    ensures FoundKeywords(keywords, text, ci).Ok?
    ensures FoundKeywords(keywords, text, ci).value == Occurring(keywords, text, ci)
  {
    if keywords != [] {
      FoundKeywordsExactly(keywords[..|keywords| - 1], text, ci);
    }
  }

  /** Reference definition: the keywords that occur, in order. */
  function Occurring(keywords: seq<Json>, text: string, ci: bool): (r: seq<Json>)
    requires forall i :: 0 <= i < |keywords| ==> keywords[i].JStr?
    ensures forall x :: x in r ==> x in keywords && KeywordOccurs(x, text, ci) == Ok(true)
    ensures forall i :: 0 <= i < |keywords| && KeywordOccurs(keywords[i], text, ci) == Ok(true) ==> keywords[i] in r
  {
    if keywords == [] then []
    else
      var front := keywords[..|keywords| - 1];
      var k := keywords[|keywords| - 1];
      var rest := Occurring(front, text, ci);
      assert forall i :: 0 <= i < |keywords| - 1 ==> keywords[i] == front[i];
      if KeywordOccurs(k, text, ci) == Ok(true) then rest + [k] else rest
  }

  function GenerationContains(name: Json, expected: Obj, output: Obj): Result<ValidationResult> {
    var expectedKeywords := GetOr(expected, "expected_keywords", JList([]));
    var caseInsensitive := Truthy(GetOr(expected, "case_insensitive", JBool(true)));
    match FirstPresent(output, TextKeys)
    case None => Ok(Failed(name, NoGeneratedText, [("available_keys", KeysJson(output))]))
    case Some(JNull) => Ok(Failed(name, NoGeneratedText, [("available_keys", KeysJson(output))]))
    case Some(v) =>
      var text := GeneratedText(v);
      match Iterate(expectedKeywords)
      case Err(e) => Err(e)
      case Ok(keywords) =>
        match FoundKeywords(keywords, text, caseInsensitive)
        case Err(e) => Err(e)
        case Ok(found) =>
          Ok(ValidationResult(name, found != [], KeywordsFound(|found|, |keywords|),
            [("generated_text", JStr(Prefix(text, 500))), ("expected_keywords", expectedKeywords), ("found_keywords", JList(found))]))
  }

  /**
   * `generation_contains` fails when none of the five text keys is present,
   * and otherwise (string keywords) passes iff some keyword occurs in the
   * chosen text, lower-casing both sides unless case_insensitive is falsy.
   */
  lemma GenerationContainsVerdict(name: Json, expected: Obj, output: Obj, keywords: seq<Json>)
    requires GetOr(expected, "expected_keywords", JList([])) == JList(keywords)
    requires forall i :: 0 <= i < |keywords| ==> keywords[i].JStr?
    ensures FirstPresent(output, TextKeys).None? ==>
      GenerationContains(name, expected, output) == Ok(Failed(name, NoGeneratedText, [("available_keys", KeysJson(output))]))
    ensures forall v :: FirstPresent(output, TextKeys) == Some(v) && v != JNull ==>
      GenerationContains(name, expected, output).Ok? &&
      (GenerationContains(name, expected, output).value.passed <==>
       exists i :: 0 <= i < |keywords| &&
         KeywordOccurs(keywords[i], GeneratedText(v), Truthy(GetOr(expected, "case_insensitive", JBool(true)))) == Ok(true))
  {
    var ci := Truthy(GetOr(expected, "case_insensitive", JBool(true)));
    forall v | FirstPresent(output, TextKeys) == Some(v) && v != JNull
      ensures GenerationContains(name, expected, output).Ok?
      ensures GenerationContains(name, expected, output).value.passed <==>
        exists i :: 0 <= i < |keywords| && KeywordOccurs(keywords[i], GeneratedText(v), ci) == Ok(true)
    {
      FoundKeywordsExactly(keywords, GeneratedText(v), ci);
      OccurringNonEmpty(keywords, GeneratedText(v), ci);
    }
  }

  /** Some keyword occurs exactly when the occurring keywords are not empty. */
  lemma OccurringNonEmpty(keywords: seq<Json>, text: string, ci: bool)
    requires forall i :: 0 <= i < |keywords| ==> keywords[i].JStr?
    ensures Occurring(keywords, text, ci) != [] <==>
      exists i :: 0 <= i < |keywords| && KeywordOccurs(keywords[i], text, ci) == Ok(true)
  {
    var found := Occurring(keywords, text, ci);
    if exists i :: 0 <= i < |keywords| && KeywordOccurs(keywords[i], text, ci) == Ok(true) {
      var i :| 0 <= i < |keywords| && KeywordOccurs(keywords[i], text, ci) == Ok(true);
      assert keywords[i] in found;
    }
    if found != [] {
      assert found[0] in found;
    }
  }

  // ------------------------------------------------ embedding arithmetic (exact)

  function SumSquares(xs: seq<Json>): (s: real)
    requires AllNumbers(xs)
    ensures s >= 0.0
  {
    if xs == [] then 0.0 else NumValue(xs[0]) * NumValue(xs[0]) + SumSquares(xs[1..])
  }

  function Dot(xs: seq<Json>, ys: seq<Json>): real
    requires AllNumbers(xs) && AllNumbers(ys) && |xs| == |ys|
  {
    if xs == [] then 0.0 else NumValue(xs[0]) * NumValue(ys[0]) + Dot(xs[1..], ys[1..])
  }

  function Abs(x: real): real {
    if x >= 0.0 then x else -x
  }

  /** |sqrt(s) - e| <= tol, decided on squares so that no square root is needed. */
  predicate NormWithin(s: real, e: real, tol: real) {
    e + tol >= 0.0 && s <= (e + tol) * (e + tol) && (e - tol <= 0.0 || s >= (e - tol) * (e - tol))
  }

  lemma SquareMonotone(a: real, b: real)
    requires a >= 0.0 && b >= 0.0
    ensures a <= b <==> a * a <= b * b
  {
    if a <= b {
      assert b * b - a * a == (b - a) * (b + a);
      assert (b - a) * (b + a) >= 0.0;
    } else {
      var x, y := a - b, a + b;
      assert x > 0.0 && y > 0.0;
      assert a * a - b * b == x * y;
      assert x * y > 0.0;
    }
  }

  /** NormWithin on the square of a norm is exactly the tolerance test on the norm. */
  lemma NormWithinMeaning(norm: real, e: real, tol: real)
    requires norm >= 0.0
    ensures NormWithin(norm * norm, e, tol) <==> Abs(norm - e) <= tol
  {
    if e + tol >= 0.0 {
      SquareMonotone(norm, e + tol);
    }
    if e - tol > 0.0 {
      SquareMonotone(e - tol, norm);
    }
  }

  /** dot / (sqrt(a) * sqrt(b)) >= m when both squared norms are positive, else 0 >= m. */
  predicate CosineAtLeast(dot: real, a: real, b: real, m: real) {
    if a > 0.0 && b > 0.0 then
      if dot >= 0.0 then m <= 0.0 || dot * dot >= m * m * (a * b)
      else m < 0.0 && dot * dot <= m * m * (a * b)
    else 0.0 >= m
  }

  /** CosineAtLeast on squared norms is exactly `dot >= m * (|x| * |y|)`, i.e. the similarity threshold test. */
  lemma CosineAtLeastMeaning(dot: real, na: real, nb: real, m: real)
    requires na > 0.0 && nb > 0.0
    ensures CosineAtLeast(dot, na * na, nb * nb, m) <==> dot >= m * (na * nb)
  {
    var q := na * nb;
    assert q > 0.0;
    assert (na * na) * (nb * nb) == q * q;
    assert m * m * (q * q) == (m * q) * (m * q);
    if dot >= 0.0 && m > 0.0 {
      SquareMonotone(m * q, dot);
    } else if dot < 0.0 && m < 0.0 {
      SquareMonotone(-dot, -(m * q));
    } else if dot < 0.0 {
      assert m * q >= 0.0;
    } else {
      assert m * q <= 0.0;
    }
  }

  // -------------------------------------------------------- embedding_normalized

  function EmbeddingNormalized(name: Json, expected: Obj, output: Obj): Result<ValidationResult> {
    var outputName := GetOr(expected, "output_name", JStr("sentence_embedding"));
    var expectedNorm := GetOr(expected, "expected_l2_norm", JFloat(1.0));
    var tolerance := GetOr(expected, "tolerance", JFloat(0.01));
    match Lookup(output, outputName)
    case Err(e) => Err(e)
    case Ok(None) => Ok(Failed(name, OutputNotFound(outputName), []))
    case Ok(Some(raw)) =>
      var embedding := if raw.JList? && raw.items != [] && raw.items[0].JList? then raw.items[0] else raw;
      if embedding.JList? && !AllNumbers(embedding.items) then Err(TypeError)
      else if !IsNumber(expectedNorm) || !IsNumber(tolerance) then Err(TypeError)
      else
        var squares := if embedding.JList? then SumSquares(embedding.items) else 0.0;
        Ok(ValidationResult(name, NormWithin(squares, NumValue(expectedNorm), NumValue(tolerance)),
          L2Norm(expectedNorm, tolerance), [("expected_norm", expectedNorm), ("tolerance", tolerance)]))
  }

  // ------------------------------------------------------- embeddings_compatible

  function EmbeddingsCompatible(name: Json, expected: Obj, output: Obj): Result<ValidationResult> {
    var textOutput := GetOr(expected, "text_output", JStr("text_embeds"));
    var imageOutput := GetOr(expected, "image_output", JStr("image_embeds"));
    match Lookup(output, textOutput)
    case Err(e) => Err(e)
    case Ok(text) =>
      match Lookup(output, imageOutput)
      case Err(e) => Err(e)
      case Ok(image) =>
        if text.None? || image.None? then
          var missing := (if text.None? then [textOutput] else []) + (if image.None? then [imageOutput] else []);
          Ok(Failed(name, MissingOutputs(missing), []))
        else
          var textShape := Shape(text.value);
          var imageShape := Shape(image.value);
          Ok(ValidationResult(name, textShape == imageShape, EmbeddingsCompatibility(textShape == imageShape),
            [("text_shape", ShapeJson(textShape)), ("image_shape", ShapeJson(imageShape))]))
  }

  /**
   * `embeddings_compatible` fails naming exactly the absent outputs, text
   * before image, and otherwise passes iff the two tensors have the same
   * shape, reporting both shapes.
   */
  lemma EmbeddingsCompatibleVerdict(name: Json, expected: Obj, output: Obj, textName: string, imageName: string)
    requires GetOr(expected, "text_output", JStr("text_embeds")) == JStr(textName)
    requires GetOr(expected, "image_output", JStr("image_embeds")) == JStr(imageName)
    ensures EmbeddingsCompatible(name, expected, output).Ok?
    ensures !HasKey(output, textName) || !HasKey(output, imageName) ==>
      EmbeddingsCompatible(name, expected, output).value ==
        Failed(name, MissingOutputs((if HasKey(output, textName) then [] else [JStr(textName)])
                                    + (if HasKey(output, imageName) then [] else [JStr(imageName)])), [])
    ensures HasKey(output, textName) && HasKey(output, imageName) ==>
      var textShape := Shape(Find(output, textName).value);
      var imageShape := Shape(Find(output, imageName).value);
      && (EmbeddingsCompatible(name, expected, output).value.passed <==> textShape == imageShape)
      && EmbeddingsCompatible(name, expected, output).value.details ==
           [("text_shape", ShapeJson(textShape)), ("image_shape", ShapeJson(imageShape))]
  {
  }

  // --------------------------------------------------------------- output_exists

  predicate HasTensorOutputs(o: Obj) {
    HasKey(o, "outputs") && Get(o, "outputs").JObj?
  }

  /** `_extract_tensor_data`: the `outputs` mapping when there is one, else the response itself. */
  function TensorData(o: Obj): Obj {
    if HasTensorOutputs(o) then Get(o, "outputs").fields else o
  }

  function OutputExists(name: Json, expected: Obj, output: Obj): Result<ValidationResult> {
    var outputName := GetOr(expected, "output_name", JStr("output"));
    var minElements := GetOr(expected, "min_elements", JInt(0));
    var data := TensorData(output);
    match Lookup(data, outputName)
    case Err(e) => Err(e)
    case Ok(None) => Ok(Failed(name, OutputNotFoundInResponse(outputName), [("available_keys", KeysJson(data))]))
    case Ok(Some(v)) =>
      var length: nat := if v.JList? then |v.items| else 1;
      var details := [("output_name", outputName), ("length", JInt(length)), ("min_expected", minElements)];
      match Greater(minElements, JInt(0))
      case Err(e) => Err(e)
      case Ok(positive) =>
        if !positive then Ok(ValidationResult(name, true, OutputFound(outputName, length), details))
        else match Less(JInt(length), minElements)
          case Err(e) => Err(e)
          case Ok(short) =>
            if short then Ok(Failed(name, OutputTooShort(outputName, length, minElements), details))
            else Ok(ValidationResult(name, true, OutputFound(outputName, length), details))
  }

  /** With a numeric minimum, `output_exists` passes iff the output is present with at least that many elements. */
  lemma OutputExistsVerdict(name: Json, expected: Obj, output: Obj, outputName: string, minimum: int)
    requires GetOr(expected, "output_name", JStr("output")) == JStr(outputName)
    requires GetOr(expected, "min_elements", JInt(0)) == JInt(minimum)
    ensures OutputExists(name, expected, output).Ok?
    ensures OutputExists(name, expected, output).value.passed <==>
      HasKey(TensorData(output), outputName) &&
      (var v := Find(TensorData(output), outputName).value; (if v.JList? then |v.items| else 1) >= minimum || minimum <= 0)
  {
  }

  // -------------------------------------------------------------- status_success

  function StatusSuccess(name: Json, expected: Obj, output: Obj): Result<ValidationResult> {
    var status := Get(output, "status");
    var outputSize := GetOr(output, "output_size", JInt(0));
    var minOutputSize := GetOr(expected, "min_output_size", JInt(0));
    if !EqStr(status, "success") then
      Ok(Failed(name, StatusNotSuccess(status), [("status", status), ("message", GetOr(output, "message", JStr("")))]))
    else
      match Greater(minOutputSize, JInt(0))
      case Err(e) => Err(e)
      case Ok(positive) =>
        match (if positive then Less(outputSize, minOutputSize) else Ok(false))
        case Err(e) => Err(e)
        case Ok(tooSmall) =>
          if tooSmall then
            if ThousandsFormatError(outputSize).Some? then Err(ThousandsFormatError(outputSize).value)
            else if ThousandsFormatError(minOutputSize).Some? then Err(ThousandsFormatError(minOutputSize).value)
            else Ok(Failed(name, OutputSizeBelowMinimum(outputSize, minOutputSize),
              [("status", status), ("output_size", outputSize), ("min_output_size", minOutputSize),
               ("model_id", GetOr(output, "model_id", JStr("unknown")))]))
          else if ThousandsFormatError(outputSize).Some? then Err(ThousandsFormatError(outputSize).value)
          else Ok(ValidationResult(name, true, StatusSucceeded(outputSize),
            [("status", status), ("output_size", outputSize), ("min_output_size", minOutputSize),
             ("model_id", GetOr(output, "model_id", JStr("unknown"))),
             ("inference_time_us", GetOr(output, "inference_time_us", JInt(0)))]))
  }

  /**
   * `status_success` fails when status is not "success"; with numeric sizes
   * it fails when min_output_size > 0 and output_size < min_output_size, and
   * passes otherwise (a missing output_size counts as 0).
   */
  lemma StatusSuccessVerdict(name: Json, expected: Obj, output: Obj)
    ensures !EqStr(Get(output, "status"), "success") ==>
      StatusSuccess(name, expected, output).Ok? && !StatusSuccess(name, expected, output).value.passed
    ensures EqStr(Get(output, "status"), "success")
            && IsNumber(GetOr(output, "output_size", JInt(0))) && IsNumber(GetOr(expected, "min_output_size", JInt(0))) ==>
      StatusSuccess(name, expected, output).Ok? &&
      (StatusSuccess(name, expected, output).value.passed <==>
        !(NumValue(GetOr(expected, "min_output_size", JInt(0))) > 0.0 &&
          NumValue(GetOr(output, "output_size", JInt(0))) < NumValue(GetOr(expected, "min_output_size", JInt(0)))))
  {
  }

  // ------------------------------------------------------------ core metadata

  /**
   * `_validate_core_response`. It runs outside every try block, so the
   * exceptions it can raise (comparing or formatting a non-numeric
   * output_size or inference_time_us) escape `validate`.
   */
  function CoreResponse(name: Json, expected: Obj, output: Obj): Result<ValidationResult> {
    var status := Get(output, "status");
    var outputSize := GetOr(output, "output_size", JInt(0));
    var inferenceTime := GetOr(output, "inference_time_us", JInt(0));
    var modelId := GetOr(output, "model_id", JStr("unknown"));
    if !EqStr(status, "success") then
      Ok(Failed(name, CoreInferenceFailed(status), [("status", status), ("output", JObj(output))]))
    else
      match Compare(outputSize, JInt(0))
      case Err(e) => Err(e)
      case Ok(c) =>
        if c <= 0 then
          Ok(Failed(name, CoreNoOutput(outputSize),
            [("status", status), ("output_size", outputSize), ("inference_time_us", inferenceTime)]))
        else if ThousandsFormatError(outputSize).Some? then Err(ThousandsFormatError(outputSize).value)
        else if ThousandsFormatError(inferenceTime).Some? then Err(ThousandsFormatError(inferenceTime).value)
        else
          Ok(ValidationResult(name, true, CoreSuccess(outputSize, inferenceTime),
            [("status", status), ("model_id", modelId), ("output_size", outputSize),
             ("inference_time_us", inferenceTime),
             ("expected_shape", GetOr(expected, "expected_shape", JList([]))),
             ("validation_note", JStr("Validated Core metadata response (tensor data not returned by Core API)"))]))
  }

  /**
   * Metadata validation fails when status is not "success", and with numeric
   * fields fails iff output_size <= 0 (missing counts as 0); it never
   * consults the expected mapping for its verdict.
   */
  lemma CoreResponseVerdict(name: Json, expected: Obj, output: Obj)
    ensures !EqStr(Get(output, "status"), "success") ==>
      CoreResponse(name, expected, output).Ok? && !CoreResponse(name, expected, output).value.passed
    ensures EqStr(Get(output, "status"), "success")
            && IsNumber(GetOr(output, "output_size", JInt(0))) && IsNumber(GetOr(output, "inference_time_us", JInt(0))) ==>
      CoreResponse(name, expected, output).Ok? &&
      (CoreResponse(name, expected, output).value.passed <==> NumValue(GetOr(output, "output_size", JInt(0))) > 0.0)
    ensures forall other: Obj :: CoreResponse(name, other, output).Ok? == CoreResponse(name, expected, output).Ok?
    ensures forall other: Obj :: CoreResponse(name, other, output).Ok? ==>
      CoreResponse(name, other, output).value.passed == CoreResponse(name, expected, output).value.passed
  {
  }

  // ----------------------------------------------------------- top_k_class_match

  /** `top_k_indices.index(c)`: the first position holding a value equal to `c`. */
  function PositionOf(top: seq<nat>, c: Json): (r: Option<nat>)
    ensures r.Some? ==> r.value < |top| && EqInt(c, top[r.value]) && forall p :: 0 <= p < r.value ==> !EqInt(c, top[p])
    ensures r.None? ==> forall p :: 0 <= p < |top| ==> !EqInt(c, top[p])
  {
    if top == [] then None
    else if EqInt(c, top[0]) then Some(0)
    else match PositionOf(top[1..], c)
      case None => None
      case Some(p) => Some(p + 1)
  }

  /** `c` is the first of `acceptable` that occurs in `top`, and it occurs first at position `p`. */
  predicate FirstFoundAt(acceptable: seq<Json>, top: seq<nat>, c: Json, p: nat) {
    exists i :: 0 <= i < |acceptable| && acceptable[i] == c && PositionOf(top, c) == Some(p)
                && forall j :: 0 <= j < i ==> PositionOf(top, acceptable[j]).None?
  }

  /** The first acceptable class (in list order) that is in the top-K, with its 1-based rank. */
  function FirstAcceptable(acceptable: seq<Json>, top: seq<nat>): (r: Option<(Json, nat)>)
    ensures r.None? ==> forall i :: 0 <= i < |acceptable| ==> PositionOf(top, acceptable[i]).None?
    ensures r.Some? ==> r.value.1 >= 1 && FirstFoundAt(acceptable, top, r.value.0, r.value.1 - 1)
  {
    if acceptable == [] then None
    else match PositionOf(top, acceptable[0])
      case Some(p) => Some((acceptable[0], p + 1))
      case None =>
        var r := FirstAcceptable(acceptable[1..], top);
        assert forall i :: 1 <= i < |acceptable| ==> acceptable[i] == acceptable[1..][i - 1];
        r
  }

  function ScoresAt(xs: seq<Json>, top: seq<nat>): seq<Json>
    requires forall i :: 0 <= i < |top| ==> top[i] < |xs|
  {
    seq(|top|, i requires 0 <= i < |top| => xs[top[i]])
  }

  function TopKClassMatch(name: Json, expected: Obj, output: Obj): Result<ValidationResult> {
    var outputName := GetOr(expected, "output_name", JStr("output"));
    var topK := GetOr(expected, "top_k", JInt(5));
    var expectedClass := Get(expected, "expected_class_index");
    var alternatives := GetOr(expected, "alternative_classes", JList([]));
    if expectedClass == JNull then Ok(Failed(name, NoExpectedClassIndex, []))
    else
      match Lookup(output, outputName)
      case Err(e) => Err(e)
      case Ok(None) => Ok(Failed(name, OutputNotFoundInResponse(outputName), [("available_keys", KeysJson(output))]))
      case Ok(Some(raw)) =>
        var logits := if raw.JList? && raw.items != [] && raw.items[0].JList? then raw.items[0] else raw;
        if !logits.JList? then Ok(Failed(name, NotListOfLogits, [("output_type", JStr(TypeName(logits)))]))
        else
          TopPositionsInRange(logits.items, topK);
          match TopPositions(logits.items, topK)
          case Err(e) => Err(e)
          case Ok(top) =>
            if !alternatives.JList? then Err(TypeError)
            else Ok(ClassMatchOutcome(name, expectedClass, alternatives, topK, top, ScoresAt(logits.items, top)))
  }

  /** Lines 765-800: the verdict once the top-K indices are known. */
  function ClassMatchOutcome(name: Json, expectedClass: Json, alternatives: Json, topK: Json,
                             top: seq<nat>, scores: seq<Json>): ValidationResult
    requires alternatives.JList?
  {
    var first := FirstAcceptable([expectedClass] + alternatives.items, top);
    var message :=
      if first.None? then ClassNotInTopK(expectedClass, topK)
      else if IsNumber(first.value.0) && EqNumber(first.value.0, expectedClass) then ClassFoundAtRank(expectedClass, first.value.1)
      else AlternativeFoundAtRank(expectedClass, first.value.0, first.value.1);
    ValidationResult(name, first.Some?, message,
      [("expected_class", expectedClass), ("alternative_classes", alternatives),
       ("found_class", if first.Some? then first.value.0 else JNull),
       ("rank", if first.Some? then JInt(first.value.1) else JNull),
       ("top_k_indices", IndicesJson(top)),
       ("top_k_scores", JList(Prefix(scores, 5)))])
  }

  /**
   * The outcome passes iff some class of [expected] + alternatives is in the
   * top-K, and it reports as `found_class` and `rank` the first such class in
   * that list order and its 1-based top-K position.
   */
  lemma ClassMatchOutcomeRank(name: Json, expectedClass: Json, alternatives: seq<Json>, topK: Json,
                              top: seq<nat>, scores: seq<Json>)
    ensures ClassMatchOutcome(name, expectedClass, JList(alternatives), topK, top, scores).passed <==>
      exists i :: 0 <= i < 1 + |alternatives| && PositionOf(top, ([expectedClass] + alternatives)[i]).Some?
    ensures ClassMatchOutcome(name, expectedClass, JList(alternatives), topK, top, scores).passed ==>
      exists c, p: nat :: FirstFoundAt([expectedClass] + alternatives, top, c, p)
        && Find(ClassMatchOutcome(name, expectedClass, JList(alternatives), topK, top, scores).details, "rank") == Some(JInt(p + 1))
        && Find(ClassMatchOutcome(name, expectedClass, JList(alternatives), topK, top, scores).details, "found_class") == Some(c)
  {
    var acceptable := [expectedClass] + alternatives;
    var first := FirstAcceptable(acceptable, top);
    if first.Some? {
      var c, q: nat := first.value.0, first.value.1 - 1;
      assert FirstFoundAt(acceptable, top, c, q);
      var d := ClassMatchOutcome(name, expectedClass, JList(alternatives), topK, top, scores).details;
      assert d[2] == ("found_class", c) && d[3] == ("rank", JInt(q + 1));
      assert d[0].0[0] != 'r' && d[1].0[0] != 'r' && d[2].0[0] != 'r';
      FindFirst(d, 3);
      assert d[0].0[0] != 'f' && d[1].0[0] != 'f';
      FindFirst(d, 2);
    }
  }

  /**
   * `top_k_class_match` fails without an expected class or on a non-list
   * output; otherwise it passes iff some class of [expected] + alternatives is
   * in the top-K, and `rank` is the 1-based top-K position of the first such
   * class in that list order.
   */
  lemma TopKClassMatchVerdict(name: Json, expected: Obj, output: Obj, outputName: string)
    requires GetOr(expected, "output_name", JStr("output")) == JStr(outputName)
    ensures Get(expected, "expected_class_index") == JNull ==>
      TopKClassMatch(name, expected, output) == Ok(Failed(name, NoExpectedClassIndex, []))
    ensures Get(expected, "expected_class_index") != JNull && HasKey(output, outputName)
            && !Find(output, outputName).value.JList? ==>
      TopKClassMatch(name, expected, output).Ok? && !TopKClassMatch(name, expected, output).value.passed
  {
  }

  /** Past those failures, the verdict is the one ClassMatchOutcome gives on the ranked top-K. */
  lemma TopKClassMatchReachesOutcome(name: Json, expected: Obj, output: Obj, outputName: string,
                                     alternatives: seq<Json>, top: seq<nat>)
    requires GetOr(expected, "output_name", JStr("output")) == JStr(outputName)
    requires Get(expected, "expected_class_index") != JNull
    requires GetOr(expected, "alternative_classes", JList([])) == JList(alternatives)
    requires HasKey(output, outputName) && ClassScores(Find(output, outputName).value).JList?
    requires TopPositions(ClassScores(Find(output, outputName).value).items, GetOr(expected, "top_k", JInt(5))) == Ok(top)
    ensures TopKClassMatch(name, expected, output).Ok?
    ensures TopKClassMatch(name, expected, output).value.passed ==
      ClassMatchOutcome(name, Get(expected, "expected_class_index"), JList(alternatives),
                        GetOr(expected, "top_k", JInt(5)), top, []).passed
    ensures TopKClassMatch(name, expected, output).value.details[..4] ==
      ClassMatchOutcome(name, Get(expected, "expected_class_index"), JList(alternatives),
                        GetOr(expected, "top_k", JInt(5)), top, []).details[..4]
  {
  }

  /** The first batch item of a nested output, as lines 748-749 take it. */
  function ClassScores(raw: Json): Json {
    if raw.JList? && raw.items != [] && raw.items[0].JList? then raw.items[0] else raw
  }

  // -------------------------------------------------------------- mlm_prediction

  /**
   * Lines 843-859: the logits at the mask position, or None when the output
   * is not a non-empty list.
   */
  function MaskLogits(logits: Json, maskPosition: Json): Result<Option<Json>> {
    if logits.JList? && logits.items != [] then
      if logits.items[0].JList? then
        var row := logits.items[0].items;
        if row == [] then Err(IndexError)
        else if row[0].JList? then
          match Index(row, maskPosition)
          case Err(e) => Err(e)
          case Ok(v) => Ok(Some(v))
        else
          match Greater(JInt(|logits.items|), maskPosition)
          case Err(e) => Err(e)
          case Ok(inRange) =>
            if inRange then
              match Index(logits.items, maskPosition)
              case Err(e) => Err(e)
              case Ok(v) => Ok(Some(v))
            else Ok(Some(logits.items[|logits.items| - 1]))
      else Ok(Some(logits))
    else Ok(None)
  }

  function MlmPrediction(name: Json, expected: Obj, output: Obj): Result<ValidationResult> {
    var outputName := GetOr(expected, "output_name", JStr("output"));
    var maskPosition := Get(expected, "mask_position");
    var expectedTokens := GetOr(expected, "expected_token_ids", JList([]));
    var topK := GetOr(expected, "top_k", JInt(10));
    if maskPosition == JNull then Ok(Failed(name, NoMaskPosition, []))
    else
      match Lookup(output, outputName)
      case Err(e) => Err(e)
      case Ok(None) => Ok(Failed(name, OutputNotFoundInResponse(outputName), []))
      case Ok(Some(raw)) =>
        match MaskLogits(raw, maskPosition)
        case Err(e) => Err(e)
        case Ok(None) => Ok(Failed(name, NotStructuredForMlm, []))
        case Ok(Some(maskLogits)) =>
          match Iterate(maskLogits)
          case Err(e) => Err(e)
          case Ok(scores) =>
            match TopPositions(scores, topK)
            case Err(e) => Err(e)
            case Ok(top) =>
              match Iterate(expectedTokens)
              case Err(e) => Err(e)
              case Ok(tokens) =>
                var found := MembersOf(tokens, top);
                Ok(ValidationResult(name, found != [], ExpectedTokensCount(|found|, |tokens|, topK),
                  [("mask_position", maskPosition), ("expected_tokens", expectedTokens),
                   ("found_tokens", JList(found)), ("top_k_tokens", IndicesJson(top))]))
  }

  /**
   * On a [batch, seq, vocab] output, a mask position past the sequence
   * raises IndexError; an output that is not a non-empty list fails.
   */
  lemma MlmPredictionEdges(name: Json, expected: Obj, output: Obj, outputName: string, rows: seq<Json>, p: nat)
    requires GetOr(expected, "output_name", JStr("output")) == JStr(outputName)
    requires Get(expected, "mask_position") == JInt(p)
    ensures Find(output, outputName) == Some(JList([JList(rows)])) && rows != [] && rows[0].JList? && p >= |rows| ==>
      MlmPrediction(name, expected, output) == Err(IndexError)
    ensures Find(output, outputName) == Some(JList([])) ==>
      MlmPrediction(name, expected, output) == Ok(Failed(name, NotStructuredForMlm, []))
  {
  }

  /**
   * The logits `mlm_prediction` ranks: on [batch, seq, vocab] the row at the
   * mask position; on [batch, vocab] with one batch item that item; on
   * [seq, vocab] the row at the mask position, or the last row when the
   * position is not below the row count.
   */
  lemma MaskLogitsRows(rows: seq<Json>, p: int)
    ensures rows != [] && rows[0].JList? && -|rows| <= p < |rows| ==>
      MaskLogits(JList([JList(rows)]), JInt(p)) == Ok(Some(if p >= 0 then rows[p] else rows[|rows| + p]))
    ensures rows != [] && !rows[0].JList? && p >= -1 ==>
      MaskLogits(JList([JList(rows)]), JInt(p)) == Ok(Some(JList(rows)))
    ensures rows != [] && rows[0].JList? && rows[0].items != [] && !rows[0].items[0].JList? && 0 <= p ==>
      MaskLogits(JList(rows), JInt(p)) == Ok(Some(if p < |rows| then rows[p] else rows[|rows| - 1]))
  {
  }

  /**
   * On a [batch, seq, vocab] output with numeric scores at a valid mask
   * position, `mlm_prediction` passes iff some expected token id is among
   * the top-K of the logits at that position; found_tokens are the expected
   * ids in the top-K, in configured order.
   */
  lemma MlmPredictionVerdict(name: Json, expected: Obj, output: Obj, outputName: string, rows: seq<Json>, p: int,
                             scores: seq<Json>, tokens: seq<Json>, k: nat)
    requires GetOr(expected, "output_name", JStr("output")) == JStr(outputName)
    requires Get(expected, "mask_position") == JInt(p)
    requires Find(output, outputName) == Some(JList([JList(rows)]))
    requires rows != [] && rows[0].JList? && -|rows| <= p < |rows|
    requires (if p >= 0 then rows[p] else rows[|rows| + p]) == JList(scores)
    requires AllNumbers(scores)
    requires GetOr(expected, "top_k", JInt(10)) == JInt(k)
    requires GetOr(expected, "expected_token_ids", JList([])) == JList(tokens)
    ensures MlmPrediction(name, expected, output).Ok?
    ensures var top := TopK(ScoreKeys(scores), k);
      && (MlmPrediction(name, expected, output).value.passed <==> exists x, n :: x in tokens && n in top && EqInt(x, n))
      && MlmPrediction(name, expected, output).value.details ==
           [("mask_position", JInt(p)), ("expected_tokens", JList(tokens)),
            ("found_tokens", JList(MembersOf(tokens, top))), ("top_k_tokens", IndicesJson(top))]
  {
    MaskLogitsRows(rows, p);
    TopPositionsOfNumbers(scores, k);
    var found := MembersOf(tokens, TopK(ScoreKeys(scores), k));
    if found != [] {
      assert found[0] in found;
    }
  }

  // -------------------------------------------------------- embedding_similarity

  /** Lines 913-921: the CLS row of [batch, seq, hidden], the first item of [batch, hidden]. */
  function SimilarityEmbedding(raw: Json): Result<Json> {
    if raw.JList? && raw.items != [] && raw.items[0].JList? then
      var row := raw.items[0].items;
      if row == [] then Err(IndexError)
      else if row[0].JList? then Ok(row[0]) else Ok(raw.items[0])
    else Ok(raw)
  }

  function EmbeddingSimilarity(name: Json, expected: Obj, output: Obj): Result<ValidationResult> {
    var outputName := GetOr(expected, "output_name", JStr("output"));
    var reference := Get(expected, "reference_embedding");
    var minSimilarity := GetOr(expected, "min_cosine_similarity", JFloat(0.7));
    if reference == JNull then Ok(Failed(name, NoReferenceEmbedding, []))
    else
      match Lookup(output, outputName)
      case Err(e) => Err(e)
      case Ok(None) => Ok(Failed(name, OutputNotFoundInResponse(outputName), []))
      case Ok(Some(raw)) =>
        match SimilarityEmbedding(raw)
        case Err(e) => Err(e)
        case Ok(embedding) =>
          if !embedding.JList? || !reference.JList? then Ok(Failed(name, EmbeddingsNotLists, []))
          else if |embedding.items| != |reference.items| then
            Ok(Failed(name, DimensionMismatch(|embedding.items|, |reference.items|), []))
          else if !AllNumbers(embedding.items) || !AllNumbers(reference.items) || !IsNumber(minSimilarity) then
            Err(TypeError)
          else
            var passed := CosineAtLeast(Dot(embedding.items, reference.items),
                                        SumSquares(embedding.items), SumSquares(reference.items),
                                        NumValue(minSimilarity));
            Ok(ValidationResult(name, passed, CosineSimilarity(minSimilarity),
              [("min_threshold", minSimilarity), ("embedding_dim", JInt(|embedding.items|))]))
  }

  /**
   * The structural failures of `embedding_similarity`: no reference, a
   * non-list side, and a dimension mismatch each fail without raising.
   */
  lemma EmbeddingSimilarityStructure(name: Json, expected: Obj, output: Obj, outputName: string, emb: seq<Json>)
    requires GetOr(expected, "output_name", JStr("output")) == JStr(outputName)
    ensures Get(expected, "reference_embedding") == JNull ==>
      EmbeddingSimilarity(name, expected, output) == Ok(Failed(name, NoReferenceEmbedding, []))
    ensures Get(expected, "reference_embedding") != JNull && !Get(expected, "reference_embedding").JList?
            && Find(output, outputName) == Some(JList(emb)) && (emb == [] || !emb[0].JList?) ==>
      EmbeddingSimilarity(name, expected, output) == Ok(Failed(name, EmbeddingsNotLists, []))
    ensures forall ref: seq<Json> ::
      (Get(expected, "reference_embedding") == JList(ref) && Find(output, outputName) == Some(JList(emb))
       && (emb == [] || !emb[0].JList?) && |emb| != |ref|) ==>
      EmbeddingSimilarity(name, expected, output) == Ok(Failed(name, DimensionMismatch(|emb|, |ref|), []))
  {
  }
}
