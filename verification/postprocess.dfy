/** Post-processing (`internal/postprocess`): the chat request that asks
    the language model to clean up a raw transcript, and the clean-up of
    the model's answer. The chat client is a parameter from the request to
    its outcome. */
module PostProcess {
  import opened Wrappers
  import opened Errors
  import Text
  import GoQuote
  import Vocabulary
  import Upstream

  /** The system prompt used when the request brings none of its own. */
  const DefaultSystemPrompt: string := @"You are a dictation post-processor. You receive raw speech-to-text output and return clean text ready to be typed into an application.

Your job:
- Remove filler words (um, uh, you know, like) unless they carry meaning.
- Fix spelling, grammar, and punctuation errors.
- When the transcript already contains a word that is a close misspelling of a name or term from the context or custom vocabulary, correct the spelling. Never insert names or terms from context that the speaker did not say.
- Preserve the speaker's intent, tone, and meaning exactly.

Output rules:
- Return ONLY the cleaned transcript text, nothing else.
- If the transcription is empty, return exactly: EMPTY
- Do not add words, names, or content that are not in the transcription. The context is only for correcting spelling of words already spoken.
- Do not change the meaning of what was said."

  /** The text that introduces the vocabulary in the system prompt. */
  const VocabularyHeader: string :=
    "The following vocabulary must be treated as high-priority terms while rewriting.\n"
    + "Use these spellings exactly in the output when relevant:\n"

  /** The user message up to the quoted context summary. */
  const Instructions: string :=
    "Instructions: Clean up RAW_TRANSCRIPTION and return only the cleaned transcript text"
    + " without surrounding quotes. Return EMPTY if there should be no result.\n\nCONTEXT: "

  /** What separates the quoted context summary from the quoted transcript. */
  const TranscriptLabel: string := "\n\nRAW_TRANSCRIPTION: "

  /** The answer by which the model says there is no transcript. */
  const EmptyMarker: string := "EMPTY"

  datatype TokenUsage = TokenUsage(promptTokens: int, completionTokens: int, totalTokens: int)

  /** `postprocess.Input`. `includeDebugPrompt` is accepted and ignored. */
  datatype Input = Input(
    transcript: string,
    contextSummary: string,
    customVocabulary: string,
    customSystemPrompt: string,
    model: string,
    includeDebugPrompt: bool)

  datatype Result = Result(transcript: string, usage: Option<TokenUsage>)

  /** The service's configuration; the timeout it puts on each call is not
      modelled. */
  datatype Service = Service(defaultModel: string)

  /** `postprocess.New`: the default model is kept trimmed. */
  function New(defaultModel: string): (s: Service)
    ensures Text.IsTrimmed(s.defaultModel)
    ensures s.defaultModel == "" <==> Text.AllSpace(defaultModel)
  {
    Service(Text.TrimSpace(defaultModel))
  }

  /** Exactly the white space around the default model is dropped. */
  lemma NewTrimsModel(a: string, model: string, b: string)
    requires Text.AllSpace(a) && Text.AllSpace(b) && Text.IsTrimmed(model)
    ensures New(a + model + b).defaultModel == model
  {
    Text.TrimSpaceOfPadded(a, model, b);
  }

  /** The vocabulary block of the system prompt: empty when the raw
      vocabulary holds no term, otherwise the header followed by the
      merged terms joined by ", ". */
  function VocabularyPrompt(rawVocabulary: string): (r: string)
    ensures r == "" <==> Vocabulary.Terms(rawVocabulary) == []
    ensures r != "" ==> r == VocabularyHeader + Text.Join(Vocabulary.Terms(rawVocabulary), ", ")
  {
    var terms := Vocabulary.Terms(rawVocabulary);
    var text := Vocabulary.NormalizedText(terms);
    Vocabulary.NormalizedTextOfClean(terms);
    assert terms != [] ==> !Text.AllSpace(terms[0]);
    if text == "" then "" else VocabularyHeader + text
  }

  /** The system prompt: the trimmed custom prompt, or the default one when
      the custom prompt is blank; then, only when some vocabulary term
      survives, a blank line and the vocabulary block. */
  function SystemPrompt(customPrompt: string, rawVocabulary: string): (r: string)
    ensures var base := Text.TrimmedOr(customPrompt, DefaultSystemPrompt);
      && (Vocabulary.Terms(rawVocabulary) == [] ==> r == base)
      && (Vocabulary.Terms(rawVocabulary) != [] ==>
            r == base + "\n\n" + VocabularyHeader + Text.Join(Vocabulary.Terms(rawVocabulary), ", "))
  {
    var prompt := Text.TrimmedOr(customPrompt, DefaultSystemPrompt);
    var vocabulary := VocabularyPrompt(rawVocabulary);
    if vocabulary != "" then prompt + "\n\n" + vocabulary else prompt
  }

  /** Every vocabulary term appears in the system prompt, whatever the
      custom prompt. */
  lemma SystemPromptNamesEveryTerm(customPrompt: string, rawVocabulary: string, i: nat)
    requires i < |Vocabulary.Terms(rawVocabulary)|
    ensures Text.Contains(SystemPrompt(customPrompt, rawVocabulary), Vocabulary.Terms(rawVocabulary)[i])
  {
    var terms := Vocabulary.Terms(rawVocabulary);
    var base := Text.TrimmedOr(customPrompt, DefaultSystemPrompt);
    Text.JoinContains(terms, ", ", i);
    Text.ContainsAfter(base + "\n\n" + VocabularyHeader, Text.Join(terms, ", "), terms[i]);
  }

  /** The user message: the instructions, then the context summary and the
      raw transcript, each quoted with `%q`. Both fields can be read back
      from it exactly, whatever they contain. */
  function UserMessage(contextSummary: string, transcript: string): (r: string)
    ensures Text.HasPrefix(r, Instructions)
    ensures ReadUserMessage(r) == Some((contextSummary, transcript))
  {
    var r := Instructions + GoQuote.Quote(contextSummary) + TranscriptLabel + GoQuote.Quote(transcript);
    UserMessageReadsBack(contextSummary, transcript);
    assert r[..|Instructions|] == Instructions;
    r
  }

  /** Reads the context summary and the transcript back out of a user
      message: the instructions, a quoted literal, the transcript label
      and a final quoted literal. */
  function ReadUserMessage(m: string): Option<(string, string)> {
    ReadFramed(m, Instructions, TranscriptLabel)
  }

  /** Reads two quoted literals out of `m`: `head`, the first literal,
      `middle`, the second literal and nothing after it. */
  function ReadFramed(m: string, head: string, middle: string): Option<(string, string)> {
    if !Text.HasPrefix(m, head) then None
    else
      match GoQuote.ReadQuoted(m[|head|..])
      case None => None
      case Some((first, rest)) =>
        if !Text.HasPrefix(rest, middle) then None
        else
          match GoQuote.ReadQuoted(rest[|middle|..])
          case Some((second, tail)) =>
            if tail == "" then Some((first, second)) else None
          case None => None
  }

  /** Two quoted values framed by any head and middle read back exactly. */
  lemma FramedReadsBack(head: string, middle: string, a: string, b: string)
    ensures ReadFramed(head + GoQuote.Quote(a) + middle + GoQuote.Quote(b), head, middle) == Some((a, b))
  {
    var q1 := GoQuote.Quote(a);
    var q2 := GoQuote.Quote(b);
    var rest := middle + q2;
    assert head + q1 + middle + q2 == head + (q1 + rest);
    Text.PrefixOfConcat(head, q1 + rest);
    GoQuote.ReadQuotedQuote(a, rest);
    Text.PrefixOfConcat(middle, q2);
    assert q2 == q2 + "";
    GoQuote.ReadQuotedQuote(b, "");
  }

  lemma UserMessageReadsBack(contextSummary: string, transcript: string)
    ensures ReadUserMessage(Instructions + GoQuote.Quote(contextSummary) + TranscriptLabel + GoQuote.Quote(transcript))
         == Some((contextSummary, transcript))
  {
    FramedReadsBack(Instructions, TranscriptLabel, contextSummary, transcript);
  }

  /** The chat request `Process` sends: the trimmed requested model, else
      the service's default; temperature 0; a system message and then a
      user message. */
  function ChatRequest(s: Service, input: Input): (req: Upstream.ChatCompletionRequest)
    ensures req.model == Text.TrimmedOr(input.model, s.defaultModel)
    ensures req.temperature == 0.0
    ensures |req.messages| == 2
    ensures req.messages[0].role == "system" && req.messages[1].role == "user"
    ensures req.messages[0].content == SystemPrompt(input.customSystemPrompt, input.customVocabulary)
    ensures ReadUserMessage(req.messages[1].content) == Some((input.contextSummary, input.transcript))
  {
    Upstream.ChatCompletionRequest(
      Text.TrimmedOr(input.model, s.defaultModel),
      0.0,
      [ Upstream.ChatMessage("system", SystemPrompt(input.customSystemPrompt, input.customVocabulary)),
        Upstream.ChatMessage("user", UserMessage(input.contextSummary, input.transcript)) ])
  }

  /** The trimmed answer is wrapped in one pair of double quotes. */
  predicate Quoted(t: string) {
    |t| > 1 && t[0] == '"' && t[|t| - 1] == '"'
  }

  /** `sanitizePostProcessedTranscript`: the answer trimmed; one layer of
      surrounding double quotes removed and the rest trimmed again; and the
      marker EMPTY turned into the empty transcript. */
  function Sanitize(value: string): (r: string)
    ensures Text.IsTrimmed(r)
    ensures r != EmptyMarker
    ensures |r| <= |value|
    ensures Text.AllSpace(value) ==> r == ""
  {
    var t := Text.TrimSpace(value);
    if t == "" then ""
    else
      var u := if Quoted(t) then Text.TrimSpace(t[1..|t| - 1]) else t;
      if u == EmptyMarker then "" else u
  }

  /** An answer that is already clean comes back unchanged. */
  lemma SanitizeKeepsClean(t: string)
    requires Text.IsTrimmed(t) && !Quoted(t) && t != EmptyMarker
    ensures Sanitize(t) == t
  {
  }

  /** Exactly one layer of quotes is removed, whatever white space
      surrounds it, and what is inside is trimmed. */
  lemma SanitizeStripsOneLayer(a: string, inner: string, b: string)
    requires Text.AllSpace(a) && Text.AllSpace(b)
    ensures var u := Text.TrimSpace(inner);
      Sanitize(a + "\"" + inner + "\"" + b) == (if u == EmptyMarker then "" else u)
  {
    var t := ['"'] + inner + ['"'];
    assert t[0] == '"' && t[|t| - 1] == '"';
    assert Text.IsTrimmed(t) && Quoted(t);
    assert a + "\"" + inner + "\"" + b == a + t + b;
    Text.TrimSpaceOfPadded(a, t, b);
    assert t[1..|t| - 1] == inner;
    SanitizeOfTrimmed(a + t + b, t);
  }

  lemma SanitizeOfTrimmed(value: string, t: string)
    requires Text.TrimSpace(value) == t && Quoted(t)
    ensures var u := Text.TrimSpace(t[1..|t| - 1]);
      Sanitize(value) == (if u == EmptyMarker then "" else u)
  {
  }

  /** The marker EMPTY, bare or quoted, is the empty transcript. */
  lemma SanitizeEmptyMarker(a: string, b: string)
    requires Text.AllSpace(a) && Text.AllSpace(b)
    ensures Sanitize(a + EmptyMarker + b) == ""
    ensures Sanitize(a + "\"" + EmptyMarker + "\"" + b) == ""
  {
    MarkerIsPlain();
    Text.TrimSpaceOfPadded(a, EmptyMarker, b);
    SanitizeOfPlain(a + EmptyMarker + b, EmptyMarker);
    SanitizeStripsOneLayer(a, EmptyMarker, b);
  }

  lemma MarkerIsPlain()
    ensures Text.IsTrimmed(EmptyMarker) && !Quoted(EmptyMarker) && Text.TrimSpace(EmptyMarker) == EmptyMarker
  {
    assert EmptyMarker[0] == 'E' && EmptyMarker[|EmptyMarker| - 1] == 'Y';
  }

  lemma SanitizeOfPlain(value: string, t: string)
    requires Text.TrimSpace(value) == t && t != "" && !Quoted(t)
    ensures Sanitize(value) == (if t == EmptyMarker then "" else t)
  {
  }

  /** `postprocess.Service.Process`: a chat error is returned as it is;
      otherwise the transcript is the sanitised answer and the usage is
      copied field by field, absent exactly when the answer had none. The
      chat client sees the request `ChatRequest` builds. */
  function Process(
    s: Service, input: Input,
    chat: Upstream.ChatCompletionRequest -> Outcome<Upstream.ChatCompletionResponse>): (r: Outcome<Result>)
    ensures chat(ChatRequest(s, input)).Err? ==> r == Err(chat(ChatRequest(s, input)).error)
    ensures chat(ChatRequest(s, input)).Ok? ==>
      var answer := chat(ChatRequest(s, input)).value;
      && r.Ok?
      && r.value.transcript == Sanitize(answer.content)
      && (r.value.usage.None? <==> answer.usage.None?)
      && (answer.usage.Some? ==>
            && r.value.usage.value.promptTokens == answer.usage.value.promptTokens
            && r.value.usage.value.completionTokens == answer.usage.value.completionTokens
            && r.value.usage.value.totalTokens == answer.usage.value.totalTokens)
  {
    match chat(ChatRequest(s, input))
    case Err(e) => Err(e)
    case Ok(answer) =>
      var usage := match answer.usage
        case None => None
        case Some(u) => Some(TokenUsage(u.promptTokens, u.completionTokens, u.totalTokens));
      Ok(Result(Sanitize(answer.content), usage))
  }

  /** The deprecated debug flag changes nothing. */
  lemma ProcessIgnoresDebugFlag(
    s: Service, input: Input,
    chat: Upstream.ChatCompletionRequest -> Outcome<Upstream.ChatCompletionResponse>)
    ensures Process(s, input.(includeDebugPrompt := true), chat) == Process(s, input.(includeDebugPrompt := false), chat)
  {
    assert ChatRequest(s, input.(includeDebugPrompt := true)) == ChatRequest(s, input.(includeDebugPrompt := false));
  }
}
