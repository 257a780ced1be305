/**
 * The classifier: one chat request to a language model, turned into a
 * violation verdict. Every failure along the way yields "no violation"
 * (fail closed to inaction).
 */
module Classifier {
  import opened Wrappers

  /** Whatever the inference engine reports when a chat request fails. */
  datatype LlmError = LlmError(detail: string)

  /** One completion choice; its message content may be absent. */
  datatype Choice = Choice(content: Option<string>)

  /** A chat completion response. */
  datatype ChatResponse = ChatResponse(choices: seq<Choice>)

  /** The JSON shape the model is constrained to: {"violates_rules": bool}. */
  datatype Evaluation = Evaluation(violatesRules: bool)

  /** The first element of a sequence, if any. */
  function First<T>(s: seq<T>): (r: Option<T>)
    ensures r.Some? <==> s != []
    ensures r.Some? ==> r.value == s[0]
  {
    if s == [] then None else Some(s[0])
  }

  /**
   * The verdict for `content`. `llm` stands for building the fixed request
   * around `content` and sending it to the model; `parse` stands for decoding
   * the answer text as an Evaluation.
   */
  function EvaluateMessage(content: string,
                           llm: string -> Result<ChatResponse, LlmError>,
                           parse: string -> Option<Evaluation>): (violates: bool)
    // the call fails
    ensures llm(content).Failure? ==> !violates
    // the model returns no choices
    ensures llm(content).Success? && llm(content).value.choices == [] ==> !violates
    // the first choice carries no content
    ensures (llm(content).Success? && llm(content).value.choices != []
             && llm(content).value.choices[0].content.None?) ==> !violates
    // the first choice's content does not parse
    ensures (llm(content).Success? && llm(content).value.choices != []
             && llm(content).value.choices[0].content.Some?
             && parse(llm(content).value.choices[0].content.value).None?) ==> !violates
    // otherwise the verdict is the parsed field
    ensures (llm(content).Success? && llm(content).value.choices != []
             && llm(content).value.choices[0].content.Some?
             && parse(llm(content).value.choices[0].content.value).Some?)
            ==> violates == parse(llm(content).value.choices[0].content.value).value.violatesRules
  {
    match llm(content)
    case Failure(_) => false
    case Success(response) =>
      match First(response.choices)
      case None => false
      case Some(choice) =>
        match choice.content
        case None => false
        case Some(text) =>
          match parse(text)
          case None => false
          case Some(evaluation) => evaluation.violatesRules
  }

  /** The answer text of a successful call's first choice, if there is one. */
  function AnswerText(outcome: Result<ChatResponse, LlmError>): Option<string>
  {
    if outcome.Success? && outcome.value.choices != [] then outcome.value.choices[0].content
    else None
  }

  /**
   * Fail-closed policy: the verdict is true exactly when the call succeeded,
   * a first choice with content exists, and that content parsed to
   * {"violates_rules": true}.
   */
  lemma FailClosed(content: string,
                   llm: string -> Result<ChatResponse, LlmError>,
                   parse: string -> Option<Evaluation>)
    ensures EvaluateMessage(content, llm, parse) <==>
            AnswerText(llm(content)).Some? && parse(AnswerText(llm(content)).value) == Some(Evaluation(true))
  {
  }

  /** Only the first choice is consulted: choices after it never change the verdict. */
  lemma OnlyFirstChoiceConsulted(content: string,
                                 llm1: string -> Result<ChatResponse, LlmError>,
                                 llm2: string -> Result<ChatResponse, LlmError>,
                                 parse: string -> Option<Evaluation>)
    requires llm1(content).Success? && llm2(content).Success?
    requires llm1(content).value.choices != [] && llm2(content).value.choices != []
    requires llm1(content).value.choices[0] == llm2(content).value.choices[0]
    ensures EvaluateMessage(content, llm1, parse) == EvaluateMessage(content, llm2, parse)
  {
  }

  /** The parser is applied to the first choice's content and to nothing else. */
  lemma ParserSeesOnlyAnswerText(content: string,
                                 llm: string -> Result<ChatResponse, LlmError>,
                                 parse1: string -> Option<Evaluation>,
                                 parse2: string -> Option<Evaluation>)
    requires AnswerText(llm(content)).Some? ==>
             parse1(AnswerText(llm(content)).value) == parse2(AnswerText(llm(content)).value)
    ensures EvaluateMessage(content, llm, parse1) == EvaluateMessage(content, llm, parse2)
  {
  }
}
