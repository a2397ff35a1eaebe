/** The pipeline (`internal/pipeline`): transcribe, then post-process, and
    fall back to the raw transcript when post-processing fails. Both
    stages are parameters: the transcriber from the upload name and the
    model to its outcome (the audio stream is bound into it), and the
    post-processor from its input to its outcome. Timings are not
    modelled. */
module Pipeline {
  import opened Wrappers
  import opened Errors
  import Text
  import PostProcess
  import Upstream

  /** The status of a run whose post-processing succeeded. */
  const Succeeded: string := "Post-processing succeeded"

  /** The status of a run that fell back to the raw transcript. */
  const FellBack: string := "Post-processing failed, using raw transcript"

  datatype Service = Service(defaultTranscriptionModel: string, defaultPostProcessModel: string)

  /** `pipeline.ProcessInput` without the audio stream. `includeDebug` is
      accepted and passed on. */
  datatype ProcessInput = ProcessInput(
    fileName: string,
    contextSummary: string,
    customVocabulary: string,
    customSystemPrompt: string,
    transcriptionModel: string,
    postProcessModel: string,
    includeDebug: bool)

  /** `pipeline.ProcessResult` without the timings. */
  datatype ProcessResult = ProcessResult(
    rawTranscript: string,
    finalTranscript: string,
    postProcessingStatus: string,
    postProcessingUsage: Option<PostProcess.TokenUsage>)

  /** `pipeline.New`: both default models are kept trimmed. */
  function New(defaultTranscriptionModel: string, defaultPostProcessModel: string): (s: Service)
    ensures Text.IsTrimmed(s.defaultTranscriptionModel) && Text.IsTrimmed(s.defaultPostProcessModel)
    ensures s.defaultTranscriptionModel == "" <==> Text.AllSpace(defaultTranscriptionModel)
    ensures s.defaultPostProcessModel == "" <==> Text.AllSpace(defaultPostProcessModel)
  {
    Service(Text.TrimSpace(defaultTranscriptionModel), Text.TrimSpace(defaultPostProcessModel))
  }

  /** Exactly the white space around each default model is dropped. */
  lemma NewTrimsModels(a: string, tm: string, b: string, c: string, pm: string, d: string)
    requires Text.AllSpace(a) && Text.AllSpace(b) && Text.IsTrimmed(tm)
    requires Text.AllSpace(c) && Text.AllSpace(d) && Text.IsTrimmed(pm)
    ensures New(a + tm + b, c + pm + d) == Service(tm, pm)
  {
    Text.TrimSpaceOfPadded(a, tm, b);
    Text.TrimSpaceOfPadded(c, pm, d);
  }

  /** The input the post-processor receives for a raw transcript. */
  function PostProcessInput(s: Service, input: ProcessInput, raw: string): (r: PostProcess.Input)
    ensures r.transcript == raw && r.includeDebugPrompt == input.includeDebug
    ensures r.customVocabulary == input.customVocabulary && r.customSystemPrompt == input.customSystemPrompt
    ensures Text.IsTrimmed(r.contextSummary) && (r.contextSummary == "" <==> Text.AllSpace(input.contextSummary))
    ensures Text.AllSpace(input.postProcessModel) ==> r.model == s.defaultPostProcessModel
    ensures !Text.AllSpace(input.postProcessModel) ==> r.model == Text.TrimSpace(input.postProcessModel)
  {
    PostProcess.Input(
      raw,
      Text.TrimSpace(input.contextSummary),
      input.customVocabulary,
      input.customSystemPrompt,
      Text.TrimmedOr(input.postProcessModel, s.defaultPostProcessModel),
      input.includeDebug)
  }

  /** The transcriber's outcome for this input. */
  function Transcription(s: Service, input: ProcessInput, transcriber: (string, string) -> Outcome<string>): Outcome<string> {
    transcriber(input.fileName, Text.TrimmedOr(input.transcriptionModel, s.defaultTranscriptionModel))
  }

  /** `Service.Process`. The transcriber gets the upload name as given and
      the trimmed model override, else the default. Its error ends the
      run. Otherwise the raw transcript is its text, trimmed, and the
      post-processor gets that transcript, the trimmed context summary,
      the vocabulary and system prompt as given, the trimmed post-process
      model override or the default, and the debug flag. A post-processing
      error is not an error of the run: the final transcript is then the
      raw one, with the fallback status and no usage. Otherwise the final
      transcript is the post-processed one, trimmed, with its usage. */
  function Process(
    s: Service, input: ProcessInput,
    transcriber: (string, string) -> Outcome<string>,
    postProcessor: PostProcess.Input -> Outcome<PostProcess.Result>): (r: Outcome<ProcessResult>)
    ensures Transcription(s, input, transcriber).Err? ==> r == Err(Transcription(s, input, transcriber).error)
    ensures Transcription(s, input, transcriber).Ok? ==>
      var raw := Text.TrimSpace(Transcription(s, input, transcriber).value);
      var post := postProcessor(PostProcessInput(s, input, raw));
      && r.Ok?
      && r.value.rawTranscript == raw
      && (post.Err? ==> r.value == ProcessResult(raw, raw, FellBack, None))
      && (post.Ok? ==> r.value == ProcessResult(raw, Text.TrimSpace(post.value.transcript), Succeeded, post.value.usage))
    ensures r.Ok? ==> Text.IsTrimmed(r.value.rawTranscript)
    ensures r.Ok? ==> r.value.postProcessingStatus in {Succeeded, FellBack}
  {
    match Transcription(s, input, transcriber)
    case Err(e) => Err(e)
    case Ok(text) =>
      var raw := Text.TrimSpace(text);
      match postProcessor(PostProcessInput(s, input, raw))
      case Err(_) => Ok(ProcessResult(raw, raw, FellBack, None))
      case Ok(result) => Ok(ProcessResult(raw, Text.TrimSpace(result.transcript), Succeeded, result.usage))
  }

  /** A failed transcription ends the run before post-processing: the
      post-processor is never consulted. */
  lemma TranscriptionFailureSkipsPostProcessing(
    s: Service, input: ProcessInput,
    transcriber: (string, string) -> Outcome<string>,
    postProcessor: PostProcess.Input -> Outcome<PostProcess.Result>,
    otherPostProcessor: PostProcess.Input -> Outcome<PostProcess.Result>)
    requires Transcription(s, input, transcriber).Err?
    ensures Process(s, input, transcriber, postProcessor).Err?
    ensures Process(s, input, transcriber, postProcessor) == Process(s, input, transcriber, otherPostProcessor)
  {
  }

  /** The status tells exactly whether post-processing succeeded, and a
      fallback always returns the raw transcript as the final one. */
  lemma StatusTellsOutcome(
    s: Service, input: ProcessInput,
    transcriber: (string, string) -> Outcome<string>,
    postProcessor: PostProcess.Input -> Outcome<PostProcess.Result>)
    requires Process(s, input, transcriber, postProcessor).Ok?
    ensures var r := Process(s, input, transcriber, postProcessor).value;
      && (r.postProcessingStatus == Succeeded <==>
            postProcessor(PostProcessInput(s, input, r.rawTranscript)).Ok?)
      && (r.postProcessingStatus == FellBack ==>
            r.finalTranscript == r.rawTranscript && r.postProcessingUsage.None?)
  {
  }

  /** With the real post-processing service behind it, a successful run
      returns the sanitised answer of the model as the final transcript:
      the pipeline's own trimming changes nothing more. */
  lemma FinalIsSanitisedAnswer(
    s: Service, input: ProcessInput,
    transcriber: (string, string) -> Outcome<string>,
    post: PostProcess.Service,
    chat: Upstream.ChatCompletionRequest -> Outcome<Upstream.ChatCompletionResponse>,
    raw: string)
    requires Transcription(s, input, transcriber).Ok?
    requires raw == Text.TrimSpace(Transcription(s, input, transcriber).value)
    requires chat(PostProcess.ChatRequest(post, PostProcessInput(s, input, raw))).Ok?
    ensures var answer := chat(PostProcess.ChatRequest(post, PostProcessInput(s, input, raw))).value;
      var r := Process(s, input, transcriber, i => PostProcess.Process(post, i, chat));
      && r.Ok?
      && r.value.finalTranscript == PostProcess.Sanitize(answer.content)
      && r.value.postProcessingStatus == Succeeded
  {
  }

  /** A run can succeed with a non-empty raw transcript and an empty final
      one: the model answers EMPTY, however padded, which post-processing
      turns into "". */
  lemma EmptyFinalFromNonEmptyRaw(
    s: Service, input: ProcessInput,
    transcriber: (string, string) -> Outcome<string>,
    post: PostProcess.Service,
    chat: Upstream.ChatCompletionRequest -> Outcome<Upstream.ChatCompletionResponse>,
    text: string, a: string, b: string)
    requires text != "" && Text.IsTrimmed(text)
    requires Text.AllSpace(a) && Text.AllSpace(b)
    requires Transcription(s, input, transcriber) == Ok(text)
    requires chat(PostProcess.ChatRequest(post, PostProcessInput(s, input, text))) ==
      Ok(Upstream.ChatCompletionResponse(a + PostProcess.EmptyMarker + b, None))
    ensures var r := Process(s, input, transcriber, i => PostProcess.Process(post, i, chat));
      && r.Ok?
      && r.value.rawTranscript == text
      && r.value.finalTranscript == ""
      && r.value.postProcessingStatus == Succeeded
  {
    assert Text.TrimSpace(text) == text;
    FinalIsSanitisedAnswer(s, input, transcriber, post, chat, text);
    PostProcess.SanitizeEmptyMarker(a, b);
  }
}
