// The outcome of one golden-data check (class ValidationResult in
// scripts/validate-inference.py). The human-readable message is kept as
// the structured data its f-string is built from.
module ValidationResults {
  import opened Json

  datatype Message =
    | ModelNotFound(model: string)
    | NoTestCases(model: string)
    | UnknownValidationType(validationType: Json)
    | ValidationError(exc: Exc)
    | TensorValidationError(exc: Exc)
    | CoreInferenceFailed(status: Json)
    | CoreNoOutput(outputSize: Json)
    | CoreSuccess(outputSize: Json, inferenceTime: Json)
    | OutputNotFoundInResponse(outputName: Json)
    | OutputNotFound(outputName: Json)
    | ShapeMatches(actual: seq<nat>)
    | ShapeMismatch(expectedShape: Json, actual: seq<nat>)
    | AllShapesMatch
    | SomeShapesMismatch
    | FoundExpectedClasses(found: nat, expected: nat, topK: Json)
    | GotTopK(topK: Json)
    | ExpectedTokensFound(anyFound: bool, topK: Json)
    | NoGeneratedText
    | KeywordsFound(found: nat, expected: nat)
    | L2Norm(expectedNorm: Json, tolerance: Json)
    | MissingOutputs(missing: seq<Json>)
    | EmbeddingsCompatibility(compatible: bool)
    | OutputTooShort(outputName: Json, length: nat, minElements: Json)
    | OutputFound(outputName: Json, length: nat)
    | StatusNotSuccess(status: Json)
    | OutputSizeBelowMinimum(outputSize: Json, minOutputSize: Json)
    | StatusSucceeded(outputSize: Json)
    | NoExpectedClassIndex
    | NotListOfLogits
    | ClassFoundAtRank(expectedClass: Json, rank: nat)
    | AlternativeFoundAtRank(expectedClass: Json, alternative: Json, rank: nat)
    | ClassNotInTopK(expectedClass: Json, topK: Json)
    | NoMaskPosition
    | NotStructuredForMlm
    | ExpectedTokensCount(found: nat, expected: nat, topK: Json)
    | NoReferenceEmbedding
    | EmbeddingsNotLists
    | DimensionMismatch(embeddingDim: nat, referenceDim: nat)
    | CosineSimilarity(minSimilarity: Json)

  /** `test_name` is whatever the golden file holds under `name`, hence a JSON value. */
  datatype ValidationResult = ValidationResult(testName: Json, passed: bool, message: Message, details: Obj)

  function Failed(name: Json, msg: Message, details: Obj): ValidationResult {
    ValidationResult(name, false, msg, details)
  }
}
