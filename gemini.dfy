/**
  What `solveMathWithGemini` (services/geminiService.ts) hands back to the
  calculator. The remote model and its client library are not part of this
  model: the reply is an input, and only the wrapper's own decisions
  (the missing key, the empty reply, the caught failure, the trim) are kept.
 */
module Gemini {
  import opened JsText
  import opened Expression

  /** How the awaited promise settles for the calculator: a string, or a rejection. */
  datatype AiOutcome = Returned(text: string) | Thrown

  /** What the remote call gave: a response with text, a response whose text is missing, or an exception. */
  datatype Reply = Text(text: string) | NoText | Failed

  /**
    No client without an API key, so the call rejects; otherwise it always
    resolves: to the trimmed text, or to the error marker when the text is
    missing or empty or the request failed.
   */
  function SolveMath(hasApiKey: bool, reply: Reply): (o: AiOutcome)
    ensures o == Thrown <==> !hasApiKey
    ensures hasApiKey && reply.Text? && reply.text != "" ==> o == Returned(Trim(reply.text))
    ensures hasApiKey && !(reply.Text? && reply.text != "") ==> o == Returned(ErrorMarker)
    ensures o.Returned? ==> o.text == ErrorMarker || (o.text == [] || !IsWhitespace(o.text[0]))
  {
    if !hasApiKey then Thrown
    else match reply
      case Text(t) => if t != "" then Returned(Trim(t)) else Returned(ErrorMarker)
      case NoText => Returned(ErrorMarker)
      case Failed => Returned(ErrorMarker)
  }
}
