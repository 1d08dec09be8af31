/** The request handler `POST` (app/src/app/api/chat/route.ts, lines 42-123):
    the API-key guard, the prompt with its two interpolated slots, the call to
    the completion service and the mapping of its outcome to a response.

    The parsed request body, the environment's API key, the reference
    directory and the completion service are parameters: the service is a
    function from the call it receives to its outcome. */
module ChatRoute {
  import opened Wrappers
  import LearningData

  /** What stands in the history slot when no history was sent. */
  const HISTORY_PLACEHOLDER: string := "なし"

  /** The error text when `GEMINI_API_KEY` is not set. */
  const KEY_MISSING_MESSAGE: string := "GEMINI_API_KEY が設定されていません"

  /** What every error text of the catch block starts with. */
  const FAILURE_PREFIX: string := "返信の生成に失敗しました: "

  const MODEL_NAME: string := "gemini-2.5-flash"

  /** The label in front of the inbound message in the second prompt part. */
  const MESSAGE_LABEL: string := "女性からのメッセージ: "

  /** Stand-in for the persona text before the reference material. */
  const PERSONA_INTRO: string := "[persona instructions; reference material follows]\n"

  /** Stand-in for the character, format and anonymisation rules between the
      reference material and the history, ending with the history heading. */
  const PERSONA_RULES: string := "\n\n[characters, output format, anonymisation rules; history follows]\n"

  datatype ChatRequest = ChatRequest(message: string, conversationHistory: Option<string>)

  /** A thrown value: an `Error` object with its message, or anything else
      with what `String(...)` makes of it. */
  datatype Thrown = ErrorInstance(message: string) | OtherValue(asString: string)

  /** The one request made to the completion service. */
  datatype Call = Call(apiKey: string, model: string, systemPrompt: string, userText: string)

  /** What the completion service does with a call: its text, or a throw
      (network failure, service error, a response whose text cannot be read). */
  datatype Completion = Generated(text: string) | Rejected(thrown: Thrown)

  datatype ResponseBody = Suggestions(suggestions: string) | ErrorBody(error: string)

  datatype Response = Response(status: nat, body: ResponseBody)

  /** `apiKey` is truthy: set and not empty. */
  predicate Configured(apiKey: Option<string>) {
    apiKey.Some? && apiKey.value != ""
  }

  /** `conversationHistory || "なし"` */
  function HistorySlot(history: Option<string>): (slot: string)
    ensures history == None || history == Some("") ==> slot == HISTORY_PLACEHOLDER
    ensures history.Some? && history.value != "" ==> slot == history.value
    ensures slot == HISTORY_PLACEHOLDER <==>
              history == None || history == Some("") || history == Some(HISTORY_PLACEHOLDER)
  {
    if history.Some? && history.value != "" then history.value else HISTORY_PLACEHOLDER
  }

  /** The system prompt: persona text, the reference material, the rules,
      then the history slot on a line of its own. */
  function SystemPrompt(learningData: string, history: Option<string>): (prompt: string)
    ensures |prompt| == |PERSONA_INTRO| + |learningData| + |PERSONA_RULES| + |HistorySlot(history)| + 1
    ensures prompt[..|PERSONA_INTRO|] == PERSONA_INTRO
    ensures prompt[|PERSONA_INTRO|..|PERSONA_INTRO| + |learningData|] == learningData
    ensures prompt[|prompt| - 1 - |HistorySlot(history)|..|prompt| - 1] == HistorySlot(history)
    ensures prompt[|prompt| - 1] == '\n'
  {
    PERSONA_INTRO + learningData + PERSONA_RULES + HistorySlot(history) + "\n"
  }

  /** The second prompt part: the label, then the message unchanged. */
  function UserText(message: string): (text: string)
    ensures |text| == |MESSAGE_LABEL| + |message|
    ensures text[..|MESSAGE_LABEL|] == MESSAGE_LABEL && text[|MESSAGE_LABEL|..] == message
  {
    MESSAGE_LABEL + message
  }

  /** `error instanceof Error ? error.message : String(error)` */
  function ErrorText(thrown: Thrown): string {
    match thrown
    case ErrorInstance(message) => message
    case OtherValue(asString) => asString
  }

  /** The error text of the catch block: the fixed prefix, then the thrown
      value's message unchanged. */
  function FailureMessage(thrown: Thrown): (m: string)
    ensures |m| == |FAILURE_PREFIX| + |ErrorText(thrown)|
    ensures m[..|FAILURE_PREFIX|] == FAILURE_PREFIX
    ensures m[|FAILURE_PREFIX|..] == ErrorText(thrown)
  {
    FAILURE_PREFIX + ErrorText(thrown)
  }

  /** What a client can read back from an error text: the reason after the
      catch block's prefix, or nothing when the prefix is not there. */
  function FailureReason(error: string): Option<string> {
    if |FAILURE_PREFIX| <= |error| && error[..|FAILURE_PREFIX|] == FAILURE_PREFIX
    then Some(error[|FAILURE_PREFIX|..])
    else None
  }

  /** The reason embedded in a downstream failure's text is the thrown
      message, recovered exactly. */
  lemma FailureReasonRoundTrip(thrown: Thrown)
    ensures FailureReason(FailureMessage(thrown)) == Some(ErrorText(thrown))
  {
  }

  /** Both failures answer with status 500; only the text tells them apart,
      and it does: the missing-key text never reads as a downstream failure. */
  lemma KeyMissingIsNoDownstreamFailure(thrown: Thrown)
    ensures FailureReason(KEY_MISSING_MESSAGE) == None
    ensures KEY_MISSING_MESSAGE != FailureMessage(thrown)
  {
    assert KEY_MISSING_MESSAGE[0] != FAILURE_PREFIX[0];
  }

  /** The system prompt determines the history slot: two prompts over the
      same reference material are equal only when their slots are. */
  lemma PromptDeterminesHistorySlot(learningData: string, h1: Option<string>, h2: Option<string>)
    requires SystemPrompt(learningData, h1) == SystemPrompt(learningData, h2)
    ensures HistorySlot(h1) == HistorySlot(h2)
  {
  }

  /** `POST`: read the body, check the key, build the prompt over the
      reference material, call the service once, and answer with its text or
      with status 500 and an error text.  `sent` is the call made to the
      service, `None` when none was made. */
  method Post(body: Result<ChatRequest, Thrown>, apiKey: Option<string>,
              dir: LearningData.Directory, service: Call -> Completion)
    returns (response: Response, sent: Option<Call>)
    ensures body.Failure? ==>
              sent == None && response == Response(500, ErrorBody(FailureMessage(body.error)))
    ensures body.Success? && !Configured(apiKey) ==>
              sent == None && response == Response(500, ErrorBody(KEY_MISSING_MESSAGE))
    ensures body.Success? && Configured(apiKey) ==>
              sent == Some(Call(apiKey.value, MODEL_NAME,
                                SystemPrompt(LearningData.Learned(dir), body.value.conversationHistory),
                                UserText(body.value.message)))
    ensures sent.Some? && service(sent.value).Generated? ==>
              response == Response(200, Suggestions(service(sent.value).text))
    ensures sent.Some? && service(sent.value).Rejected? ==>
              response == Response(500, ErrorBody(FailureMessage(service(sent.value).thrown)))
    ensures response.status == 200 <==> sent.Some? && service(sent.value).Generated?
  {
    sent := None;
    if body.Failure? {
      return Response(500, ErrorBody(FailureMessage(body.error))), sent;
    }
    var request := body.value;
    if !Configured(apiKey) {
      return Response(500, ErrorBody(KEY_MISSING_MESSAGE)), sent;
    }
    var learningData := LearningData.LoadLearningData(dir);
    var systemPrompt := SystemPrompt(learningData, request.conversationHistory);
    var call := Call(apiKey.value, MODEL_NAME, systemPrompt, UserText(request.message));
    sent := Some(call);
    var result := service(call);
    match result
    case Generated(text) =>
      response := Response(200, Suggestions(text));
    case Rejected(thrown) =>
      response := Response(500, ErrorBody(FailureMessage(thrown)));
  }
}
