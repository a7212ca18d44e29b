/**
  What `generateSolution` makes of the language-model service's answer. The
  request and the transport are outside the model; the answer arrives as a
  parsed reply, or as the exception the call raised.
 */
module Generator {
  import opened Wrappers

  /** The parts of the reply the code looks at, each level possibly missing. */
  datatype Part = Part(text: Option<string>)
  datatype Content = Content(parts: Option<seq<Part>>)
  datatype Candidate = Candidate(content: Option<Content>)
  datatype Reply = Reply(candidates: Option<seq<Candidate>>)

  /** How the call ended: with a parsed reply, or with an exception (a failed
      request or a body that is not JSON). */
  datatype Generation = Answered(reply: Reply) | Raised

  const FallbackText: string := "No se pudo generar una solución. Intenta de nuevo."
  const ErrorText: string := "Hubo un error al generar la solución."

  /** The reply has a first candidate with a content whose parts are not empty. */
  predicate WellShaped(r: Reply) {
    && r.candidates.Some? && |r.candidates.value| > 0
    && r.candidates.value[0].content.Some?
    && r.candidates.value[0].content.value.parts.Some?
    && |r.candidates.value[0].content.value.parts.value| > 0
  }

  /** The text of the first part of the first candidate. */
  function FirstText(r: Reply): Option<string>
    requires WellShaped(r)
  {
    r.candidates.value[0].content.value.parts.value[0].text
  }

  /** The response-shape check: the first part's text when the shape is right
      (`None` when that part carries no text, and the caller gets `undefined`),
      the fixed fallback sentence otherwise. */
  function ReplyText(r: Reply): Option<string> {
    if WellShaped(r) then FirstText(r) else Some(FallbackText)
  }

  /** The solution that `generateSolution` resolves to. */
  function SolutionText(g: Generation): Option<string> {
    match g
    case Raised => Some(ErrorText)
    case Answered(r) => ReplyText(r)
  }

  /** The reply a service sends for one generated text. */
  function Answer(text: string): Reply {
    Reply(Some([Candidate(Some(Content(Some([Part(Some(text))]))))]))
  }

  /** The check hands back exactly the text the service generated, even an empty one. */
  lemma AnswerRoundTrip(text: string)
    ensures SolutionText(Answered(Answer(text))) == Some(text)
  {
  }

  /** A failed request or an unreadable body gives the fixed error sentence, which
      differs from the sentence for a malformed reply. */
  lemma FailureGivesErrorText()
    ensures SolutionText(Raised) == Some(ErrorText)
    ensures ErrorText != FallbackText
  {
  }

  /** A missing or empty candidate list, a first candidate without content, or a
      content whose parts are missing or empty all give the fallback sentence. */
  lemma MalformedGivesFallback(r: Reply)
    requires || r.candidates.None? || r.candidates.value == []
             || r.candidates.value[0].content.None?
             || r.candidates.value[0].content.value.parts.None?
             || r.candidates.value[0].content.value.parts.value == []
    ensures ReplyText(r) == Some(FallbackText)
  {
  }

  /** Only the first candidate and its first part are read: further candidates
      and further parts never change the result. */
  lemma OnlyFirstPartMatters(text: Option<string>, parts: seq<Part>, rest: seq<Candidate>)
    ensures ReplyText(Reply(Some([Candidate(Some(Content(Some([Part(text)] + parts))))] + rest)))
            == text
  {
  }
}
