/** The transcription service (`internal/transcription`): it picks the
    model and the upload name, calls the speech-to-text client and trims
    what comes back. The client, with the audio stream already bound into
    it, is a parameter from the upload name and the model to the outcome. */
module Transcription {
  import opened Wrappers
  import opened Errors
  import Text

  /** The upload name used when the caller gives none. */
  const DefaultFileName: string := "audio.wav"

  /** The service's configuration; the timeout it puts on each call is not
      modelled. */
  datatype Service = Service(defaultModel: string)

  /** `transcription.New`: the default model is kept trimmed. */
  function New(defaultModel: string): (s: Service)
    ensures Text.IsTrimmed(s.defaultModel)
    ensures s.defaultModel == "" <==> Text.AllSpace(defaultModel)
  {
    Service(Text.TrimSpace(defaultModel))
  }

  /** Exactly the white space around the default model is dropped. */
  lemma NewTrimsModel(a: string, model: string, b: string)
    requires Text.AllSpace(a) && Text.AllSpace(b) && Text.IsTrimmed(model)
    ensures New(a + model + b).defaultModel == model
  {
    Text.TrimSpaceOfPadded(a, model, b);
  }

  /** The upload name: an empty name becomes "audio.wav"; any other name,
      blank or padded ones included, is kept exactly. */
  function UploadName(fileName: string): (r: string)
    ensures r != ""
    ensures fileName != "" ==> r == fileName
  {
    if fileName == "" then DefaultFileName else fileName
  }

  /** `Service.Transcribe`: the client is called with the upload name and
      the trimmed model override, else the default model; its error is
      returned as it is, and its text comes back trimmed. */
  function Transcribe(
    s: Service, fileName: string, model: string,
    client: (string, string) -> Outcome<string>): (r: Outcome<string>)
    ensures var call := client(UploadName(fileName), Text.TrimmedOr(model, s.defaultModel));
      && (r.Err? <==> call.Err?)
      && (call.Err? ==> r.error == call.error)
      && (call.Ok? ==> r.value == Text.TrimSpace(call.value))
    ensures r.Ok? ==> Text.IsTrimmed(r.value)
  {
    match client(UploadName(fileName), Text.TrimmedOr(model, s.defaultModel))
    case Err(e) => Err(e)
    case Ok(text) => Ok(Text.TrimSpace(text))
  }

  /** A blank model override is the same as asking for the default model
      by name. */
  lemma BlankModelMeansDefault(
    s: Service, fileName: string, model: string,
    client: (string, string) -> Outcome<string>)
    requires Text.AllSpace(model)
    requires s.defaultModel != "" && Text.IsTrimmed(s.defaultModel)
    ensures Transcribe(s, fileName, model, client) == Transcribe(s, fileName, s.defaultModel, client)
  {
  }

  /** White space around the client's text is dropped and nothing else:
      the trimmed core comes back unchanged. */
  lemma TranscribeDropsPadding(
    s: Service, fileName: string, model: string,
    client: (string, string) -> Outcome<string>, a: string, text: string, b: string)
    requires Text.AllSpace(a) && Text.AllSpace(b) && Text.IsTrimmed(text)
    requires client(UploadName(fileName), Text.TrimmedOr(model, s.defaultModel)) == Ok(a + text + b)
    ensures Transcribe(s, fileName, model, client) == Ok(text)
  {
    Text.TrimSpaceOfPadded(a, text, b);
  }
}
