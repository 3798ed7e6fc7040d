/** The two calls the server makes into the Gemini model (lib/gemini.ts). The model itself
    is abstract: a transcription call is given as the sequence of text pieces its response
    stream yields, and a summary call as the text (or fault) the model answers with. */
module Gemini {
  import opened Common
  import opened Text

  const DefaultMimeType := "audio/webm"
  const NoTranscriptSummary := "No transcript available to summarize."

  /** What `generateContentStream` yields for one audio chunk: the text of each streamed
      piece in order, and the fault it raises after them, if any (a fault before the first
      piece is one with no pieces). */
  datatype PieceStream = PieceStream(pieces: seq<string>, fault: Option<Thrown>)

  /** The media type a transcription call uses when its caller passes none. */
  function MimeTypeOrDefault(mimeType: Option<string>): (r: string)
    ensures mimeType.None? ==> r == DefaultMimeType
    ensures mimeType.Some? ==> r == mimeType.value
  {
    match mimeType
    case Some(m) => m
    case None => DefaultMimeType
  }

  /** What `streamGeminiTranscription` resolves to: the trimmed concatenation of the
      streamed text, or the stream's fault. Its text has no surrounding whitespace and is
      empty exactly when everything streamed was whitespace. */
  function TranscriptionOf(stream: PieceStream): (r: Result<string, Thrown>)
    ensures r.Err? <==> stream.fault.Some?
    ensures r.Err? ==> r.error == stream.fault.value
    ensures r.Ok? ==> IsTrimmed(r.value) && (r.value == "" <==> AllWhitespace(Concat(stream.pieces)))
  {
    match stream.fault
    case Some(f) => Err(f)
    case None => Ok(Trim(Concat(stream.pieces)))
  }

  /** The accumulation loop of `streamGeminiTranscription`: every non-empty piece is
      appended to the accumulator and handed to `onToken`; empty pieces are skipped.
      `tokens` lists the `onToken` calls in order; they happen even when the stream
      later fails. */
  method StreamTranscription(stream: PieceStream) returns (result: Result<string, Thrown>, tokens: seq<string>)
    ensures tokens == NonEmpty(stream.pieces)
    ensures forall i :: 0 <= i < |tokens| ==> tokens[i] != ""
    ensures result == TranscriptionOf(stream)
    ensures result.Ok? ==> result.value == Trim(Concat(tokens))
  {
    var pieces := stream.pieces;
    var acc := "";
    tokens := [];
    for i := 0 to |pieces|
      invariant tokens == NonEmpty(pieces[..i])
      invariant acc == Concat(tokens)
    {
      var text := pieces[i];
      assert pieces[..i + 1] == pieces[..i] + [text];
      if text != "" {
        assert (tokens + [text])[..|tokens|] == tokens;
        acc := acc + text;
        tokens := tokens + [text];
      }
    }
    assert pieces[..|pieces|] == pieces;
    if stream.fault.Some? {
      result := Err(stream.fault.value);
    } else {
      ConcatNonEmpty(pieces);
      result := Ok(Trim(acc));
    }
  }

  /** `summarizeTranscript`: an empty transcript gets the canned answer whatever the model
      would say (the model is not asked); otherwise the model's answer, trimmed, or its
      fault. */
  function SummarizeTranscript(transcript: string, reply: Result<string, Thrown>): (r: Result<string, Thrown>)
    ensures transcript == "" ==> r == Ok(NoTranscriptSummary)
    ensures transcript != "" ==> (r.Ok? <==> reply.Ok?)
    ensures transcript != "" && reply.Ok? ==> IsTrimmed(r.value) && r.value == Trim(reply.value)
    ensures transcript != "" && reply.Err? ==> r.error == reply.error
  {
    if transcript == "" then
      Ok(NoTranscriptSummary)
    else
      match reply
      case Ok(text) => Ok(Trim(text))
      case Err(e) => Err(e)
  }
}
