/** The JSON records the gateway reads and writes (`internal/model`). The
    JSON encoding itself, `omitempty` included, is not modelled: a record
    is its fields. */
module Api {
  import opened Wrappers

  /** A value in an error's details map: the Go `any` holds either a string
      or an int there. */
  datatype Value = Text(text: string) | Number(number: int)

  /** `map[string]any` of an `APIError`. */
  type Details = map<string, Value>

  datatype APIError = APIError(code: string, message: string, details: Option<Details>)

  /** The error envelope; `requestId` is "" when the request carries none. */
  datatype ErrorResponse = ErrorResponse(error: APIError, requestId: string)

  datatype HealthResponse = HealthResponse(ok: bool)

  datatype ReadyResponse = ReadyResponse(ok: bool, serviceName: string)

  datatype TokenUsage = TokenUsage(promptTokens: int, completionTokens: int, totalTokens: int)

  datatype TranscriptionResponse = TranscriptionResponse(text: string)

  /** The body of `POST /v1/post-process`; fields missing from the JSON
      decode as "" and false. */
  datatype PostProcessRequest = PostProcessRequest(
    transcript: string,
    contextSummary: string,
    customVocabulary: string,
    customSystemPrompt: string,
    model: string,
    includeDebugPrompt: bool)

  datatype PostProcessResponse = PostProcessResponse(transcript: string, status: string, usage: Option<TokenUsage>)

  /** The reply of `POST /v1/pipeline/process` without its timings. */
  datatype PipelineProcessResponse = PipelineProcessResponse(
    rawTranscript: string,
    finalTranscript: string,
    postProcessingStatus: string,
    postProcessingUsage: Option<TokenUsage>)
}
