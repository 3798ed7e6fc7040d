/** Values shared by the client hook, the socket server and the Gemini wrapper. */
module Common {

  datatype Option<+T> = None | Some(value: T)

  datatype Result<+R, +E> = Ok(value: R) | Err(error: E)

  /** Raw bytes of an audio chunk (a Node `Buffer`, a browser `ArrayBuffer`). */
  type Bytes = seq<bv8>

  /** A value caught by a JavaScript `catch`: an `Error` object, a thrown string,
      or anything else (`undefined`, a number, a plain object). */
  datatype Thrown = ErrorObject(message: string) | ThrownString(text: string) | ThrownOther

  /** `err instanceof Error ? err.message : fallback`, the idiom the server uses for
      transcription failures and the client for connection failures. */
  function MessageOr(err: Thrown, fallback: string): (r: string)
    ensures err.ErrorObject? ==> r == err.message
    ensures !err.ErrorObject? ==> r == fallback
  {
    match err
    case ErrorObject(m) => m
    case _ => fallback
  }
}
