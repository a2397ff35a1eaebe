/** The OpenAI-compatible upstream client (`internal/upstream/openai`):
    how each of its three calls is addressed, and how the reply is turned
    into a value or an error. The HTTP exchange itself is a parameter
    `send` from the request the client builds to the reply it receives, and
    JSON decoding of a reply body is a parameter too. */
module Upstream {
  import opened Wrappers
  import opened Errors
  import Text

  /** The longest upstream body kept in an error, before the ellipsis. */
  const MaxErrorBody: nat := 4096

  const TranscriptionsPath := "/audio/transcriptions"
  const ChatCompletionsPath := "/chat/completions"
  const ModelsPath := "/models"

  /** The HTTP status the client accepts; every other status is an error. */
  const StatusOK := 200

  datatype TokenUsage = TokenUsage(promptTokens: int, completionTokens: int, totalTokens: int)

  datatype ChatMessage = ChatMessage(role: string, content: string)

  datatype ChatCompletionRequest = ChatCompletionRequest(
    model: string,
    temperature: real,
    messages: seq<ChatMessage>)

  datatype ChatCompletionResponse = ChatCompletionResponse(content: string, usage: Option<TokenUsage>)

  datatype Client = Client(baseURL: string, apiKey: string)

  /** An HTTP request as the client issues it: where it goes, the
      `Authorization` header, and what it carries. */
  datatype Request =
    | TranscriptionRequest(url: string, authorization: string, fileName: string, model: string, audio: seq<bv8>)
    | ChatRequest(url: string, authorization: string, payload: ChatCompletionRequest)
    | ModelsRequest(url: string, authorization: string)

  /** What came back: the request could not be made or sent, or a status
      with the body bytes read and the error that cut the read short, if
      any. */
  datatype Reply =
    | TransportFailed(error: Error)
    | Response(status: int, body: string, readError: Option<Error>)

  /** A chat completion body as `json.Unmarshal` sees it: not decodable, or
      the `message.content` of each choice ("" where it is missing) and the
      `usage` object when the payload has one. */
  datatype ChatJson =
    | Undecodable(reason: string)
    | Decoded(contents: seq<string>, usage: Option<TokenUsage>)

  /** `openai.New`: trailing slashes are cut from the base URL and the key
      is trimmed. */
  function New(baseURL: string, apiKey: string): (c: Client)
    ensures Text.HasPrefix(baseURL, c.baseURL)
    ensures forall i :: |c.baseURL| <= i < |baseURL| ==> baseURL[i] == '/'
    ensures |c.baseURL| == 0 || c.baseURL[|c.baseURL| - 1] != '/'
    ensures Text.IsTrimmed(c.apiKey) && |c.apiKey| <= |apiKey|
  {
    Client(Text.TrimRightChar(baseURL, '/'), Text.TrimSpace(apiKey))
  }

  /** Extra trailing slashes on the configured base URL never change the
      client. */
  lemma NewIgnoresTrailingSlash(baseURL: string, apiKey: string)
    ensures New(baseURL + "/", apiKey) == New(baseURL, apiKey)
  {
    assert (baseURL + "/")[..|baseURL|] == baseURL;
  }

  /** A client made by `New` joins its base URL and a call's path, which
      starts with a slash as all three do, with exactly one slash, however
      many the configured URL ended with. */
  lemma CallsJoinWithOneSlash(baseURL: string, apiKey: string, path: string)
    requires |path| > 0 && path[0] == '/'
    ensures var b := New(baseURL, apiKey).baseURL;
      (b + path)[|b|] == '/' && (|b| == 0 || (b + path)[|b| - 1] != '/')
  {
    var b := New(baseURL, apiKey).baseURL;
    assert (b + path)[|b|] == path[0];
    if |b| > 0 { assert (b + path)[|b| - 1] == b[|b| - 1]; }
  }

  /** Exactly the white space around the API key is dropped. */
  lemma NewTrimsKey(baseURL: string, a: string, key: string, b: string)
    requires Text.AllSpace(a) && Text.AllSpace(b) && Text.IsTrimmed(key)
    ensures New(baseURL, a + key + b).apiKey == key
  {
    Text.TrimSpaceOfPadded(a, key, b);
  }

  function Bearer(c: Client): string {
    "Bearer " + c.apiKey
  }

  /** `truncateBody`: the trimmed body, cut to 4096 characters with
      "..." appended when it is longer. Go counts and cuts bytes; the two
      agree on ASCII bodies. */
  function TruncateBody(s: string): (r: string)
    ensures |Text.TrimSpace(s)| <= MaxErrorBody ==> r == Text.TrimSpace(s)
    ensures |Text.TrimSpace(s)| > MaxErrorBody ==>
      |r| == MaxErrorBody + 3 && r[..MaxErrorBody] == Text.TrimSpace(s)[..MaxErrorBody]
      && r[MaxErrorBody..] == "..."
    ensures |r| <= MaxErrorBody + 3
  {
    var t := Text.TrimSpace(s);
    if |t| <= MaxErrorBody then t else t[..MaxErrorBody] + "..."
  }

  /** A truncated body is already in its final form: truncating again
      changes nothing. */
  lemma TruncateBodyIdempotent(s: string)
    ensures TruncateBody(TruncateBody(s)) == TruncateBody(s)
  {
    var t := Text.TrimSpace(s);
    var r := TruncateBody(s);
    if |t| > MaxErrorBody {
      assert r[0] == t[0] && r[|r| - 1] == '.';
      assert Text.IsTrimmed(r);
      assert r[..MaxErrorBody] + "..." == r;
    }
  }

  const LineBreaks: set<char> := {'\n', '\r'}

  /** `joinLines`: the pieces of `s` between line breaks, empty ones
      dropped, joined by single spaces. */
  function JoinLines(s: string): (r: string)
    ensures Text.Avoids(r, LineBreaks)
  {
    var parts := Text.Fields(s, LineBreaks);
    Text.JoinAvoids(parts, " ", LineBreaks);
    Text.Join(parts, " ")
  }

  /** Non-empty lines without line breaks, put one per line, come back
      in order joined by single spaces. */
  lemma JoinLinesOfLines(lines: seq<string>)
    requires forall i :: 0 <= i < |lines| ==> |lines[i]| > 0 && Text.Avoids(lines[i], LineBreaks)
    ensures JoinLines(Text.Join(lines, "\n")) == Text.Join(lines, " ")
  {
    Text.FieldsOfJoin(lines, '\n', LineBreaks);
  }

  /** Text without line breaks is left as it is. */
  lemma JoinLinesOfOneLine(s: string)
    requires |s| > 0 && Text.Avoids(s, LineBreaks)
    ensures JoinLines(s) == s
  {
    Text.FieldsOfPlain(s, LineBreaks);
  }

  /** `parseTranscript`: a non-empty JSON `text` field is the transcript
      verbatim; otherwise the whole body, its lines joined and trimmed, is
      the transcript, and an empty one is an error. `decodedText` is the
      `text` field when the body decodes as a JSON object ("" when it has
      none), `None` when it does not decode. */
  function ParseTranscript(body: string, decodedText: Option<string>): (r: Outcome<string>)
    ensures decodedText.Some? && decodedText.value != "" ==> r == Ok(decodedText.value)
    ensures (decodedText.None? || decodedText.value == "") ==>
      (r.Ok? <==> Text.TrimSpace(JoinLines(body)) != "")
      && (r.Ok? ==> r.value == Text.TrimSpace(JoinLines(body)) && Text.Avoids(r.value, LineBreaks))
    ensures r.Ok? ==> r.value != ""
  {
    if decodedText.Some? && decodedText.value != "" then Ok(decodedText.value)
    else
      var plain := Text.TrimSpace(JoinLines(body));
      Text.TrimSpaceKeepsAvoiding(JoinLines(body), LineBreaks);
      if plain == "" then Err(Failure("invalid transcription response")) else Ok(plain)
  }

  /** Two lines of text are joined by a single space. */
  lemma JoinTwoLines(a: string, b: string)
    requires |a| > 0 && |b| > 0 && Text.Avoids(a, LineBreaks) && Text.Avoids(b, LineBreaks)
    ensures JoinLines(a + "\n" + b) == a + " " + b
  {
    Text.FieldsAtSeparator(a, '\n', b, LineBreaks);
    Text.FieldsOfPlain(b, LineBreaks);
    assert a + "\n" + b == a + ['\n'] + b;
    assert Text.Fields(a + "\n" + b, LineBreaks) == [a, b];
    assert Text.Join([b], " ") == b;
    assert Text.Join([a, b], " ") == a + " " + Text.Join([b], " ");
  }

  lemma PlainTextTranscriptJoinsLines()
    ensures ParseTranscript("hello\nworld", None) == Ok("hello world")
  {
    JoinTwoLines("hello", "world");
    assert "hello" + "\n" + "world" == "hello\nworld";
    assert "hello" + " " + "world" == "hello world";
    assert Text.IsTrimmed("hello world");
  }

  /** `parseChatCompletion`: the first choice's content, which must exist
      and be non-empty, with the usage exactly when the payload has one. */
  function ParseChatCompletion(decoded: ChatJson): (r: Outcome<ChatCompletionResponse>)
    ensures r.Ok? <==> decoded.Decoded? && |decoded.contents| > 0 && decoded.contents[0] != ""
    ensures r.Ok? ==> r.value.content == decoded.contents[0] && r.value.usage == decoded.usage
    ensures r.Ok? ==> (r.value.usage.None? <==> decoded.usage.None?)
  {
    match decoded
    case Undecodable(reason) => Err(Failure("invalid chat completion response: " + reason))
    case Decoded(contents, usage) =>
      if |contents| == 0 then Err(Failure("missing choices"))
      else if contents[0] == "" then Err(Failure("missing choices[0].message.content"))
      else Ok(ChatCompletionResponse(contents[0], usage))
  }

  /** The rule the two POST calls share: a failed transport or body read
      is the error; a status other than 200 is an upstream error carrying
      that status and the truncated body; a 200 yields the body. */
  function AcceptedBody(reply: Reply): (r: Outcome<string>)
    ensures r.Ok? <==> reply.Response? && reply.readError.None? && reply.status == StatusOK
  {
    match reply
    case TransportFailed(e) => Err(e)
    case Response(status, body, readError) =>
      if readError.Some? then Err(readError.value)
      else if status != StatusOK then Err(UpstreamFailure(status, TruncateBody(body)))
      else Ok(body)
  }

  /** The request `Transcribe` sends. */
  function TranscriptionCall(c: Client, fileName: string, model: string, audio: seq<bv8>): (r: Request)
    ensures r.TranscriptionRequest? && r.url == c.baseURL + "/audio/transcriptions"
    ensures r.authorization == "Bearer " + c.apiKey
    ensures r.fileName == fileName && r.model == model && r.audio == audio
  {
    TranscriptionRequest(c.baseURL + TranscriptionsPath, Bearer(c), fileName, model, audio)
  }

  /** `Client.Transcribe`. `audio` is the audio stream as read into the
      multipart form (an error when reading it failed). */
  function Transcribe(
    c: Client, audio: Outcome<seq<bv8>>, fileName: string, model: string,
    send: Request -> Reply, decodeText: string -> Option<string>): (r: Outcome<string>)
    ensures audio.Err? ==> r == audio.PropagateFailure()
    ensures audio.Ok? ==>
      var req := TranscriptionCall(c, fileName, model, audio.value);
      && req.url == c.baseURL + "/audio/transcriptions"
      && req.authorization == "Bearer " + c.apiKey
      && match send(req)
         case TransportFailed(e) => r == Err(e)
         case Response(status, body, readError) =>
           && (readError.Some? ==> r == Err(readError.value))
           && (readError.None? && status != 200 ==> r == Err(UpstreamFailure(status, TruncateBody(body))))
           && (readError.None? && status == 200 ==> r == ParseTranscript(body, decodeText(body)))
    ensures r.Ok? ==> r.value != ""
  {
    match audio
    case Err(e) => Err(e)
    case Ok(bytes) =>
      var reply := send(TranscriptionCall(c, fileName, model, bytes));
      match AcceptedBody(reply)
      case Err(e) => Err(e)
      case Ok(body) => ParseTranscript(body, decodeText(body))
  }

  /** The request `ChatCompletion` sends. */
  function ChatCall(c: Client, payload: ChatCompletionRequest): (r: Request)
    ensures r.ChatRequest? && r.url == c.baseURL + "/chat/completions"
    ensures r.authorization == "Bearer " + c.apiKey && r.payload == payload
  {
    ChatRequest(c.baseURL + ChatCompletionsPath, Bearer(c), payload)
  }

  /** `Client.ChatCompletion`. */
  function ChatCompletion(
    c: Client, payload: ChatCompletionRequest,
    send: Request -> Reply, decodeChat: string -> ChatJson): (r: Outcome<ChatCompletionResponse>)
    ensures
      var req := ChatCall(c, payload);
      && req.url == c.baseURL + "/chat/completions"
      && req.authorization == "Bearer " + c.apiKey
      && req.payload == payload
      && match send(req)
         case TransportFailed(e) => r == Err(e)
         case Response(status, body, readError) =>
           && (readError.Some? ==> r == Err(readError.value))
           && (readError.None? && status != 200 ==> r == Err(UpstreamFailure(status, TruncateBody(body))))
           && (readError.None? && status == 200 ==> r == ParseChatCompletion(decodeChat(body)))
    ensures r.Ok? ==> r.value.content != ""
  {
    match AcceptedBody(send(ChatCall(c, payload)))
    case Err(e) => Err(e)
    case Ok(body) => ParseChatCompletion(decodeChat(body))
  }

  /** The request `CheckModels` sends. */
  function ModelsCall(c: Client): (r: Request)
    ensures r.ModelsRequest? && r.url == c.baseURL + "/models"
    ensures r.authorization == "Bearer " + c.apiKey
  {
    ModelsRequest(c.baseURL + ModelsPath, Bearer(c))
  }

  /** `Client.CheckModels`: only a 200 passes; the body is read only to
      report a failure, and a failed read is ignored (what was read is
      kept). */
  function CheckModels(c: Client, send: Request -> Reply): (r: Outcome<()>)
    ensures
      var req := ModelsCall(c);
      && req.url == c.baseURL + "/models"
      && req.authorization == "Bearer " + c.apiKey
      && match send(req)
         case TransportFailed(e) => r == Err(e)
         case Response(status, body, _) =>
           && (status != 200 ==> r == Err(UpstreamFailure(status, TruncateBody(body))))
           && (status == 200 <==> r.Ok?)
  {
    match send(ModelsCall(c))
    case TransportFailed(e) => Err(e)
    case Response(status, body, _) =>
      if status != StatusOK then Err(UpstreamFailure(status, TruncateBody(body))) else Ok(())
  }

  /** Whatever the call, a reply whose status is not 200 (2xx included)
      and whose body was read surfaces as an upstream error with exactly
      that status and the truncated body. */
  lemma NonOkStatusIsUpstreamError(
    c: Client, status: int, body: string, audio: seq<bv8>, fileName: string, model: string,
    payload: ChatCompletionRequest, send: Request -> Reply,
    decodeText: string -> Option<string>, decodeChat: string -> ChatJson)
    requires status != StatusOK
    requires forall req :: send(req) == Response(status, body, None)
    ensures
      var e := UpstreamFailure(status, TruncateBody(body));
      && Transcribe(c, Ok(audio), fileName, model, send, decodeText) == Err(e)
      && ChatCompletion(c, payload, send, decodeChat) == Err(e)
      && CheckModels(c, send) == Err(e)
      && e.upstream == Some(UpstreamError(status, TruncateBody(body)))
      && |e.upstream.value.body| <= MaxErrorBody + 3
  {
    assert send(TranscriptionCall(c, fileName, model, audio)) == Response(status, body, None);
    assert send(ChatCall(c, payload)) == Response(status, body, None);
    assert send(ModelsCall(c)) == Response(status, body, None);
  }
}
