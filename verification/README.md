# EchoFlow gateway core, modelled in Dafny

EchoFlow is an HTTP gateway for dictation. It accepts an audio upload and
sends it to an OpenAI-compatible speech-to-text endpoint. A chat model then
cleans up the raw transcript, and the gateway returns both transcripts.

This project models the decisions of that gateway as pure Dafny functions
and proves what they promise. The modules follow the Go packages:

- `Upstream` is the upstream client: how each call is addressed, and how a
  reply becomes a value or an error. Truncated error bodies, joined
  plain-text transcripts and the first chat choice are part of this.
- `PostProcess` and `Vocabulary` cover post-processing: the system prompt
  with its vocabulary section, the quoted user message, the merged
  vocabulary terms and the sanitising of the model's answer.
- `Transcription` is the transcription service: the upload name, the
  model choice and the trimming of the answer.
- `Pipeline` is transcription followed by post-processing, with the
  fallback to the raw transcript.
- `Configuration` loads the configuration from the environment and
  validates it.
- `Gateway` holds the HTTP layer's decisions:
  - request ids, bearer authentication and routing;
  - the mapping from errors to status codes and details;
  - each handler's reply given its service's outcome.
- `Api` holds the JSON records. `Errors` holds the error chain as the
  gateway inspects it.
- `Text`, `Numbers` and `GoQuote` model the parts of Go's standard
  library the core relies on: `strings.TrimSpace`, `strings.Fields`-style
  splitting, `strconv` parsing and formatting, and `%q` quoting.

Collaborators are parameters of the functions that use them. This covers
the HTTP exchange with the upstream, JSON decoding of a reply, the chat
client, the transcriber, the random source and the clock. A property such
as "the service is never called" is stated as "the result does not depend
on that parameter".

The environment is a function from variable names to values, and an unset
variable reads as "". Durations are in nanoseconds.

Two behaviours of the code are worth knowing:

- The pipeline can return an empty final transcript for a non-empty raw
  one: the model answers `EMPTY` and sanitising turns that into "".
  `Pipeline.EmptyFinalFromNonEmptyRaw` proves this.
- The post-process endpoint reports "post-processing succeeded", but the
  pipeline reports "Post-processing succeeded", with a capital letter.

## Model

| member | source | states |
|---|---|---|
| Upstream.New | internal/upstream/openai/client.go:63-78 | The base URL loses exactly its trailing slashes (a prefix of the input; everything cut is '/'; no '/' at the end), and the key is trimmed |
| Upstream.NewTrimsKey | internal/upstream/openai/client.go:63-78 | A key with white space around a trimmed core keeps exactly that core, as `strings.TrimSpace` does |
| Upstream.CallsJoinWithOneSlash | internal/upstream/openai/client.go:63-78 | A client from `New` joins its base URL and a path starting with "/" with exactly one slash |
| Upstream.NewIgnoresTrailingSlash | internal/upstream/openai/client.go:63-78 | One more trailing slash on the base URL gives the same client |
| Upstream.TruncateBody | internal/upstream/openai/client.go:254-260 | A trimmed body of at most 4096 characters is kept whole; a longer one keeps its first 4096 characters followed by "..."; the result is never longer than 4099 characters (Go counts bytes here; see Left out) |
| Upstream.TruncateBodyIdempotent | internal/upstream/openai/client.go:254-260 | Truncating an already truncated body changes nothing |
| Upstream.JoinLines | internal/upstream/openai/client.go:247-252 | The joined text contains no '\n' or '\r' |
| Upstream.JoinLinesOfOneLine | internal/upstream/openai/client.go:247-252 | Non-empty text without line breaks comes back unchanged |
| Upstream.JoinTwoLines | internal/upstream/openai/client.go:247-252 | Two lines separated by '\n' become the two lines separated by one space |
| Upstream.JoinLinesOfLines | internal/upstream/openai/client.go:247-252 | Any number of non-empty lines without line breaks, one per line, come back in order joined by single spaces |
| Upstream.ParseTranscript | internal/upstream/openai/client.go:197-210 | A non-empty JSON `text` field is the transcript verbatim. Otherwise the reply succeeds exactly when the body, lines joined and trimmed, is non-empty, and that joined body is the transcript. A transcript is never empty |
| Upstream.PlainTextTranscriptJoinsLines | internal/upstream/openai/client_test.go:42-56 | A plain-text body "hello\nworld" that is not JSON reads as "hello world" |
| Upstream.ParseChatCompletion | internal/upstream/openai/client.go:212-245 | Succeeds exactly when the body decodes, has a choice, and the first choice's content is non-empty. Then the content is that first choice's and the usage is present exactly when the payload has one |
| Upstream.AcceptedBody | internal/upstream/openai/client.go:110-124 | A reply is accepted exactly when it arrived, its body was read, and its status is 200 |
| Upstream.TranscriptionCall | internal/upstream/openai/client.go:102-107 | The transcription request goes to the base URL plus "/audio/transcriptions" with "Bearer " and the key, and carries the file name, model and audio unchanged |
| Upstream.ChatCall | internal/upstream/openai/client.go:139-144 | The chat request goes to the base URL plus "/chat/completions" with "Bearer " and the key, and carries the payload unchanged |
| Upstream.ModelsCall | internal/upstream/openai/client.go:171-175 | The model listing goes to the base URL plus "/models" with "Bearer " and the key |
| Upstream.Transcribe | internal/upstream/openai/client.go:80-127 | An audio read error is returned. The request goes to base+"/audio/transcriptions" with "Bearer "+key. A transport or read failure is the error; a non-200 status is an upstream error with that status and the truncated body; a 200 is parsed as a transcript. A success is never empty |
| Upstream.ChatCompletion | internal/upstream/openai/client.go:129-164 | The payload goes unchanged to base+"/chat/completions" with the bearer key. A non-200 status is an upstream error with the truncated body; a 200 is parsed as a chat completion, whose content is never empty |
| Upstream.CheckModels | internal/upstream/openai/client.go:166-189 | GET base+"/models" with the bearer key succeeds exactly on status 200; any other status is an upstream error with the truncated body, and a body read error is ignored |
| Upstream.NonOkStatusIsUpstreamError | internal/upstream/openai/client.go:26-34 | For all three calls, any non-200 reply (other 2xx included) is the same upstream error carrying that status and the truncated body, at most 4099 characters |
| Vocabulary.Candidates | internal/postprocess/service.go:137-145 | One candidate per field between '\n', ',' and ';', in order. Each is its field trimmed and contains no separator |
| Vocabulary.FirstsComplete | internal/postprocess/service.go:145-155 | Every non-blank candidate is represented in the result by a term with the same lower-case key |
| Vocabulary.FirstsDistinct | internal/postprocess/service.go:145-155 | No two kept terms share a lower-case key |
| Vocabulary.Terms | internal/postprocess/service.go:137-157 | The reference for merged terms: non-empty, trimmed, free of separators, pairwise distinct up to case, and covering every non-blank field |
| Vocabulary.MergedVocabularyTerms | internal/postprocess/service.go:137-157 | The one-pass loop with a set of seen keys computes exactly the reference terms, first occurrence first |
| Vocabulary.MergeCaseDuplicates | internal/postprocess/service_test.go:23-30 | For any five fields shaped like "Alice, bob\nALICE; Bob; Carol", the result is the first, second and fifth terms |
| Vocabulary.FirstsOfFive | internal/postprocess/service.go:145-155 | Of five terms where the third and fourth repeat the keys of the first two and the fifth has a new key, the first, second and fifth are kept |
| Vocabulary.NormalizedText | internal/postprocess/service.go:159-169 | The normalised text is empty exactly when every term is blank |
| Vocabulary.NormalizedTextOfClean | internal/postprocess/service.go:159-169 | Terms that are already non-empty and trimmed are joined by ", " unchanged |
| PostProcess.New | internal/postprocess/service.go:59-65 | The default model is trimmed, and it is empty exactly when the given one is blank |
| PostProcess.NewTrimsModel | internal/postprocess/service.go:59-65 | A default model with white space around a trimmed core keeps exactly that core |
| PostProcess.VocabularyPrompt | internal/postprocess/service.go:79-84 | The vocabulary section is empty exactly when there are no merged terms. Otherwise it is the header followed by the terms joined by ", " |
| PostProcess.SystemPrompt | internal/postprocess/service.go:86-92 | The trimmed custom prompt, or the default prompt when the custom one is blank, followed by the vocabulary section after a blank line when there is one |
| PostProcess.SystemPromptNamesEveryTerm | internal/postprocess/service.go:79-92 | Every merged vocabulary term occurs in the system prompt |
| PostProcess.UserMessage | internal/postprocess/service.go:94-98 | The user message starts with the instructions, and the quoted context summary and transcript read back exactly as given |
| PostProcess.UserMessageReadsBack | internal/postprocess/service.go:94-98 | The instructions followed by the two `%q`-quoted values always parse back into those two values |
| PostProcess.FramedReadsBack | internal/postprocess/service.go:94-98 | Two `%q`-quoted values placed after any fixed head and between any fixed middle read back as exactly those values |
| GoQuote.UnquoteQuote | internal/postprocess/service.go:94-98 | Unquoting a `%q`-quoted string gives the string back |
| PostProcess.ChatRequest | internal/postprocess/service.go:68-107 | The model is the trimmed request override or the default. Temperature is 0. There are two messages, system then user: the system prompt, then a user message from which the context summary and transcript read back |
| PostProcess.Sanitize | internal/postprocess/service.go:123-135 | The answer comes back trimmed, never "EMPTY", and never longer than the model's answer; an answer of white space only becomes "" |
| PostProcess.SanitizeKeepsClean | internal/postprocess/service.go:123-135 | A trimmed, unquoted answer other than "EMPTY" is kept unchanged |
| PostProcess.SanitizeStripsOneLayer | internal/postprocess/service.go:123-135 | Around a padded answer in double quotes, the padding and exactly one layer of quotes are removed, and the inside is trimmed again |
| PostProcess.SanitizeEmptyMarker | internal/postprocess/service_test.go:32-45 | "EMPTY", padded or quoted, becomes "" |
| PostProcess.SanitizeOfPlain | internal/postprocess/service.go:123-135 | A non-empty unquoted answer is its trimmed text, except "EMPTY", which is "" |
| PostProcess.Process | internal/postprocess/service.go:67-121 | A chat error is returned unchanged. Otherwise the transcript is the sanitised answer, and the usage is present exactly when the answer has one, with all three counts copied |
| PostProcess.ProcessIgnoresDebugFlag | internal/postprocess/service.go:67-121 | The deprecated debug flag has no effect on the result |
| Transcription.New | internal/transcription/service.go:20-26 | The default model is trimmed, and it is empty exactly when the given one is blank |
| Transcription.NewTrimsModel | internal/transcription/service.go:20-26 | A default model with white space around a trimmed core keeps exactly that core |
| Transcription.UploadName | internal/transcription/service.go:33-35 | The upload name is never empty, and any non-empty name is kept exactly |
| Transcription.Transcribe | internal/transcription/service.go:28-45 | The client gets the upload name and the trimmed model override or the default. It fails exactly when the client fails, with the same error; otherwise the client's text comes back trimmed |
| Transcription.BlankModelMeansDefault | internal/transcription/service.go:28-45 | A blank model override behaves as naming the default model |
| Transcription.TranscribeDropsPadding | internal/transcription/service.go:28-45 | Only the white space around the client's text is removed |
| Pipeline.New | internal/pipeline/service.go:53-60 | Both default models are trimmed, and each is empty exactly when blank |
| Pipeline.NewTrimsModels | internal/pipeline/service.go:53-60 | Each default model with white space around a trimmed core keeps exactly that core |
| Pipeline.PostProcessInput | internal/pipeline/service.go:70-91 | The post-processor gets the raw transcript, the trimmed context summary, the vocabulary, prompt and debug flag unchanged, and the trimmed model override or the default |
| Pipeline.Process | internal/pipeline/service.go:62-113 | A transcription error ends the run. Otherwise the raw transcript is the trimmed text. A post-processing error yields raw as the final transcript, with the fallback status and no usage; success yields the trimmed post-processed text, the success status and the usage |
| Pipeline.TranscriptionFailureSkipsPostProcessing | internal/pipeline/service.go:75-79 | After a failed transcription the result does not depend on the post-processor |
| Pipeline.StatusTellsOutcome | internal/pipeline/service.go:102-112 | The status is the success status exactly when post-processing succeeded; a fallback returns the raw transcript as the final one, without usage |
| Pipeline.FinalIsSanitisedAnswer | internal/pipeline/service.go:62-113 | With the real post-processing service, the final transcript is exactly the sanitised model answer |
| Pipeline.EmptyFinalFromNonEmptyRaw | internal/pipeline/service.go:102-112 | Any non-empty raw transcript ends as an empty final one, with the success status, when the model answers "EMPTY" with any padding around it |
| Configuration.Validate | internal/config/config.go:61-84 | None exactly when every check passes. Otherwise the message of the first failing check, in the source's order |
| Configuration.NoTokenNeededWithoutAuth | internal/config/config.go:80-82 | With authentication off, the bearer token never affects validation |
| Configuration.EnvOrDefault | internal/config/config.go:86-92 | A blank variable gives the fallback; otherwise the trimmed, non-empty value |
| Configuration.SecondsEnvAsWritten | internal/config/config.go:94-107 | A blank variable gives the fallback duration. A non-integer is an error naming the key and the strconv error; zero or a negative number is an error. Otherwise the seconds times one second, wrapped into `int64`; every result fits `int64` |
| Configuration.SecondsEnvAsWrittenWraps | internal/config/config.go:94-107 | Every number of seconds above 9223372036 (up to twice that), written in decimal, is accepted and yields a negative duration |
| Configuration.SecondsEnvAsWrittenWrapsPositive | internal/config/config.go:94-107 | Every number of seconds from 18446744074 to 27670116110, written in decimal, is accepted and yields a positive duration shorter than the one asked for |
| Configuration.SecondsEnv | internal/config/config.go:94-107 | A blank variable gives the fallback. A non-integer is an error naming the key and the strconv error; zero or a negative number is an error. Every duration returned is a positive whole number of seconds that fits `int64` |
| Configuration.SecondsEnvRoundTrip | internal/config/config.go:94-107 | Every accepted number of seconds reads back as exactly that duration, in agreement with the code as written |
| Configuration.DurationFits | internal/config/config.go:106 | Up to 9223372036 seconds a duration fits `int64`; one second more does not |
| Configuration.Int64Env | internal/config/config.go:109-122 | A blank variable gives the fallback. A non-integer is an error naming the key and the strconv error; a non-positive number is an error. Otherwise the parsed positive `int64` |
| Configuration.Int64EnvRoundTrip | internal/config/config.go:109-122 | Every positive `int64` written in decimal reads back as itself |
| Configuration.BoolEnv | internal/config/config.go:124-134 | A blank variable gives the fallback. Otherwise it fails exactly when the value is not a `strconv.ParseBool` spelling, with the key and the syntax error in the message |
| Configuration.ReadLimits | internal/config/config.go:37-52 | The upload limit is positive, and each field is what its reader returned, the timeouts from the reader as written. The first reader's error ends the read |
| Configuration.Assemble | internal/config/config.go:28-35 | Each text setting is its variable trimmed or its default. The base URL loses trailing slashes, the key and token are trimmed, and the log level is lower-cased. The limits are as read |
| Configuration.Load | internal/config/config.go:27-59 | A read error is the load's error. Otherwise the assembled configuration is returned if valid, and the validation message is the error if not. A loaded configuration is always valid, with a positive upload limit; its timeouts are not checked |
| Configuration.ReadLimitsCorrected | internal/config/config.go:37-52 | The same read with the corrected timeout reader: every timeout it returns is positive |
| Configuration.LoadCorrected | internal/config/config.go:27-59 | The load with the corrected timeout reader: a loaded configuration is valid and all its timeouts are positive |
| Configuration.LoadWith | internal/config/config.go:53-58 | After the limits are read: their error, or the assembled configuration when it is valid, or the validation message |
| Configuration.LoadAcceptsNegativeTimeout | internal/config/config.go:38-40 | With only the key and a request timeout of 9223372037 to 18446744073 seconds set, the load succeeds with a negative request timeout, and the corrected load refuses it |
| Configuration.LoadWithRequestTimeout | internal/config/config.go:27-59 | With only the key and the request timeout set, the load gives the defaults with that timeout, whatever its sign |
| Configuration.SecondsEnvRefusesWrap | internal/config/config.go:94-107 | The corrected reader refuses every `int64` number of seconds above 9223372036 |
| Configuration.LoadNeedsUpstreamKey | internal/config/config.go:31 | Without an upstream key nothing loads, with either timeout reader |
| Configuration.LoadDefaults | internal/config/config.go:27-59 | When only the upstream key is set, every other setting takes its default: ":8080", the Groq URL, the two models, 25/20/20 seconds, 25 MiB, authentication off, "info". The corrected load agrees |
| Gateway.WriteError | internal/httpapi/server.go:306-314 | The envelope carries code, message, details and the request id. `X-Request-Id` is set exactly when there is an id, and to that id |
| Gateway.HexEncode | internal/httpapi/server.go:455-461 | Two lower-case hexadecimal digits per byte, and never an 'r' |
| Gateway.HexRoundTrip | internal/httpapi/server.go:455-461 | Hex decoding gives back the encoded bytes |
| Gateway.NewRequestId | internal/httpapi/server.go:455-461 | A fresh id is never empty. With random bytes it is 24 digits that decode back to them; otherwise it is "req-" followed by a decimal that parses back to the clock's nanoseconds |
| Gateway.FreshIdsAreDistinguishable | internal/httpapi/server.go:455-461 | A random id and a fallback id never share their first character |
| Gateway.RequestId | internal/httpapi/server.go:316-326 | The id is never empty: a non-blank inbound id trimmed, otherwise a fresh one |
| Gateway.InboundRequestIdKept | internal/httpapi/server.go:316-326 | A padded inbound id is echoed without padding, whatever the random source gives |
| Gateway.ExtractBearerToken | internal/httpapi/server.go:439-453 | There is no header exactly when it is blank, and that is fine. A present header is fine exactly when a token results, and it must start with "Bearer ". The token is always trimmed |
| Gateway.BearerTokenRoundTrip | internal/httpapi/server.go:439-453 | "Bearer " and a token, with any padding around it and before the token, yields exactly that token |
| Gateway.LowerCaseSchemeIsMalformed | internal/httpapi/server.go:439-453 | A lower-case "bearer" scheme makes the header malformed |
| Gateway.SchemeWithoutTokenIsMalformed | internal/httpapi/server.go:439-453 | "Bearer" with nothing after it is malformed |
| Gateway.Authorize | internal/httpapi/server.go:375-400 | A malformed header is refused. Off the public paths, no token and no server key is refused. A present token becomes the request key. Every refusal is a 401 |
| Gateway.PublicPathsAreProbes | internal/httpapi/server.go:392-399 | A path is public exactly when it is the path of the health, readiness or metrics endpoint |
| Gateway.AuthorizeAdmitsExactly | internal/httpapi/server.go:375-400 | Admitted if and only if the header is well formed and the path is public, a token is present, or the server has a key |
| Gateway.MalformedHeaderRefusedEverywhere | internal/httpapi/server.go:380-383 | A malformed header gets the same refusal on every path and under every server key |
| Gateway.BearerTokenAdmitted | internal/httpapi/server.go:375-391 | A well-formed token is admitted on any path and becomes the request key |
| Gateway.Route | internal/httpapi/server.go:96-121 | A method outside the router's method table (CONNECT, DELETE, GET, HEAD, OPTIONS, PATCH, POST, PUT, TRACE, spelled in upper case) is refused with 405 on every path. A route found matches its endpoint's path and method. "/metrics" is found only when a metrics handler exists, and refuses no method in the table |
| Gateway.RouteFindsEveryEndpoint | internal/httpapi/server.go:109-119 | Every endpoint is reached by its own path and an accepted method: GET for the probes, POST for the "/v1" endpoints, any method of the router's table for "/metrics" |
| Gateway.RouteNotFoundExactly | internal/httpapi/server.go:96-121 | 404 exactly when the method is in the router's table and no mounted endpoint has the path. A 405 means no endpoint with that path accepts the method, and for a method in the table some endpoint has the path |
| Gateway.Serve | internal/httpapi/server.go:104-107 | Middleware order: the request id first, then authentication, then the router. A refusal or routing error carries the id in the header and the envelope. Dispatch happens exactly when admitted and found, with the request key from authentication |
| Gateway.UnknownPathNeedsCredentialsFirst | internal/httpapi/server.go:104-107 | Without a token and without a server key, an unknown path gets 401 rather than 404 |
| Gateway.DetailsForError | internal/httpapi/server.go:474-487 | No details for no error. Otherwise "error" holds the error text; "upstream_status" is present exactly for an upstream error; "upstream_body" is present exactly when that body is non-empty; there are no other keys. The status and body held are the upstream error's own |
| Gateway.DetailsReadBack | internal/httpapi/server.go:474-487 | The error text, upstream status and upstream body all read back from the details |
| Gateway.MapError | internal/httpapi/server.go:281-304 | Upstream error gives 502, else a deadline gives 504, else a cancellation gives 499, else 500. Each has its code and message, and the details are the error's |
| Gateway.MapErrorStatusTellsKind | internal/httpapi/server.go:281-304 | The status alone identifies which of the four cases applied, with that precedence |
| Gateway.HandleHealthz | internal/httpapi/server.go:124-126 | The health reply is always ok |
| Gateway.HandleReadyz | internal/httpapi/server.go:128-141 | Without either key the reply is ready. Otherwise a failed model check is 503 "not_ready" with that error's details, and a passing one is ready. Ready names "EchoFlow" |
| Gateway.ReadyzSkipsCheckWithoutKeys | internal/httpapi/server_test.go:267-285 | Without keys the reply does not depend on the upstream check |
| Gateway.ReadyzReportsUpstreamStatus | internal/httpapi/server.go:128-141 | A non-200 model listing makes the gateway not ready, with the upstream status in the details |
| Gateway.ToModelTokenUsage | internal/httpapi/server.go:463-472 | Nil stays nil, and otherwise the three counts are copied |
| Gateway.TokenUsageRoundTrip | internal/httpapi/server.go:463-472 | The copy loses nothing in either direction |
| Gateway.PostProcessInputOf | internal/httpapi/server.go:181-188 | Every request field reaches the service input unchanged |
| Gateway.HandlePostProcess | internal/httpapi/server.go:161-199 | An oversize body is 413 and malformed JSON is 400. A blank transcript is 400. A service error goes through the error table. Success is the service's transcript, the success status and the copied usage |
| Gateway.RefusedPostProcessSkipsService | internal/httpapi/server.go:161-179 | A request refused before the service does not depend on the service |
| Gateway.UpstreamErrorIs502 | internal/httpapi/server.go:189-192 | A service error with an upstream error inside becomes a 502 whose details carry the upstream status |
| Gateway.PostProcessUpstreamFailureIs502 | internal/httpapi/server.go:161-199 | End to end: a non-200 chat completion makes the endpoint answer 502 with that status in the details |
| Gateway.MultipartFailure | internal/httpapi/server.go:259-270 | An oversize upload is 413 naming the limit. A form error is 400: it asks for the "file" field exactly when its lower-cased text mentions "no such file" or "missing", and otherwise it reports invalid form data |
| Gateway.MissingFileInAnyCase | internal/httpapi/server.go:259-270 | Any error text containing a word that lower-cases to "missing" or "no such file" asks for the "file" field |
| Gateway.ParseOptionalBool | internal/httpapi/server.go:420-426 | Blank is false; otherwise the trimmed value is parsed as a `strconv.ParseBool` spelling |
| Gateway.OptionalBoolMatchesBoolEnv | internal/httpapi/server.go:420-426 | The form field accepts and rejects exactly what a boolean environment setting with default false does, and gives the same value |
| Gateway.HandleTranscriptions | internal/httpapi/server.go:143-159 | A failed upload goes through the multipart table. The service gets the file name and the trimmed "model" field. Its error goes through the error table, and its text is the reply |
| Gateway.FailedUploadSkipsTranscriber | internal/httpapi/server.go:143-148 | A failed upload is refused whatever the transcriber would do: the reply does not depend on it |
| Gateway.BlankModelFieldIsEmpty | internal/httpapi/server.go:152-158 | A "model" field of only white space reaches the transcriber as the empty string, and the reply is what the transcriber makes of that |
| Gateway.HandlePipelineProcess | internal/httpapi/server.go:201-245 | A failed upload goes through the multipart table. A non-boolean "include_debug" is 400. A pipeline error goes through the error table. Success copies the raw and final transcripts, the status and the usage |
| Gateway.PipelineInputOf | internal/httpapi/server.go:216-225 | The pipeline gets the upload's file name, the five form fields and the parsed debug flag unchanged |
| Gateway.PipelineFallbackIsStillOk | internal/httpapi/server.go:201-245 | End to end: failed post-processing still answers 200, with the raw transcript as the final one, the fallback status and no usage |

## Left out

- HTTP transport, sockets, the `http.Client` and streaming of the multipart request body are left out. The exchange with the upstream is a parameter from the request built to the reply received.
- JSON encoding and decoding are not modelled, including `DisallowUnknownFields`, the trailing-value check and `omitempty`. Decoding enters the model as its outcome (`JsonBody`, `ChatJson`, the decoded `text` field), and a record is its fields.
- Multipart parsing, the memory threshold for parsing forms and the cleanup of temporary files are not modelled. An upload enters as its outcome: an `Upload` or a `MultipartError`.
- Context deadlines and the per-call timeouts of the services, including the two-second readiness check, are not modelled. Only their effect is kept, as the deadline and cancellation flags an error carries.
- Latency measurement, the upstream observer, Prometheus metrics and structured logging are left out, because they do not affect any reply. The pipeline's timing fields are dropped.
- The panic recovery middleware is left out, because a panic is not expressible in the model.
- The context helpers that carry the request id and the request's upstream key are left out. The key that authentication admits is passed on as a value.
- `cmd/echoflow-api/main.go` (wiring and server start-up) is not part of this model.
- Upstream.TruncateBody: counts and cuts 4096 characters of the trimmed body, while Go counts and cuts 4096 bytes, possibly inside a multi-byte rune. The two agree on ASCII bodies only: a body of 3000 "é" (6000 bytes) is cut to 2048 of them plus "..." by Go and kept whole by the model. Invalid UTF-8 in a body is not modelled.
- `Text.ToLower` lowers ASCII letters only, while Go lowers every Unicode letter. Keys and log levels outside ASCII may therefore compare differently.
- `GoQuote.IsPrint` approximates `strconv.IsPrint` by ASCII printables plus the non-ASCII range above U+00A0, so `%q` may escape some rare runes differently.
- Configuration.Load: returns only the error when loading fails. Go also returns a zero `Config`, which no caller reads.
- Gateway.Route: matches paths exactly. chi's handling of HEAD requests and trailing slashes is not modelled.
- Configuration.SecondsEnv: requires a positive fallback no greater than 9223372036 seconds. The source only ever passes 20 or 25.

## Findings

| source | as written | input that shows it | evidently intended | confidence | as-written member | corrected member |
|---|---|---|---|---|---|---|
| internal/config/config.go:94-107 | The accepted number of seconds is multiplied by `time.Second` in `int64` arithmetic, which wraps around | `REQUEST_TIMEOUT_SECONDS=9300000000` is accepted and yields a negative timeout, which `Load` keeps because `Validate` checks no timeout; values from 18446744074 to 27670116110 wrap to a wrong positive timeout, and larger values alternate in sign band by band | A positive number of seconds gives a positive timeout, or the setting is refused | not executed | Configuration.SecondsEnvAsWritten | Configuration.SecondsEnv |

`Configuration.Load` follows the code as written, so it keeps a wrapped
timeout; `Configuration.LoadCorrected` is the same load on the corrected
reader, and `Configuration.LoadAcceptsNegativeTimeout` shows where the two
part ways.
