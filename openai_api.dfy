/**
 * How the OpenAI-compatible client turns the answer of the chat-completions
 * endpoint into a NetworkResult (OpenaiApi.sendPrompt and sendMessage). The
 * HTTP exchange itself is an input: the decoded body, or the exception it
 * raised.
 */
module OpenaiApi {
  import opened Common

  const PAYMENT_REQUIRED_MESSAGE := "Payment required - please check your account balance"
  const RATE_LIMIT_MESSAGE := "Rate limit exceeded - please try again later"
  const UNKNOWN_ERROR := "Unknown error"
  /** Message of the exception `first()` throws on an empty list. */
  const EMPTY_LIST_MESSAGE := "List is empty."

  datatype OpenaiMessage = OpenaiMessage(content: string, role: string)
  datatype Choice = Choice(message: OpenaiMessage)
  datatype ErrorBody = ErrorBody(message: string)

  /** The decoded response body; both parts are optional in the JSON. */
  datatype OpenaiResponse = OpenaiResponse(error: Option<ErrorBody>, choices: Option<seq<Choice>>)

  /** What the POST produced. */
  datatype HttpOutcome =
    | Body(response: OpenaiResponse)
    | ClientRequestFailure(status: int)   // ClientRequestException, a 4xx status
    | ServerResponseFailure(status: int)  // ServerResponseException, a 5xx status
    | OtherFailure(message: Option<string>)

  /** An error message that names the key or authentication, in any letter case. */
  predicate MentionsKey(message: string)
  {
    ContainsIgnoreCase(message, "API key") || ContainsIgnoreCase(message, "authentication")
  }

  function NetworkErrorMessage(message: Option<string>): string
  {
    "Network error: " + (match message case Some(m) => m case None => UNKNOWN_ERROR)
  }

  /**
   * The classification shared by both calls; `payload` turns the first
   * choice's message into the success value. `choices!!` on a missing list
   * throws without a message and `first()` on an empty one throws
   * "List is empty."; the generic handler turns both into network errors.
   */
  function Classify<T>(outcome: HttpOutcome, payload: OpenaiMessage -> T): (r: NetworkResult<T>)
    ensures r.InvalidKey? <==>
      (outcome.ClientRequestFailure? && outcome.status == 401) ||
      (outcome.Body? && outcome.response.error.Some? && MentionsKey(outcome.response.error.value.message))
    ensures r.Success? <==>
      outcome.Body? && outcome.response.error.None? &&
      outcome.response.choices.Some? && |outcome.response.choices.value| > 0
    ensures r.Success? ==> r.data == payload(outcome.response.choices.value[0].message)
    ensures !r.InternetError?
    ensures r.OtherError? ==> r.message.Some?
  {
    match outcome
    case Body(response) =>
      if response.error.Some? then
        if MentionsKey(response.error.value.message) then InvalidKey
        else OtherError(Some(response.error.value.message))
      else if response.choices.None? then OtherError(Some(NetworkErrorMessage(None)))
      else if |response.choices.value| == 0 then OtherError(Some(NetworkErrorMessage(Some(EMPTY_LIST_MESSAGE))))
      else Success(payload(response.choices.value[0].message))
    case ClientRequestFailure(status) =>
      if status == 401 then InvalidKey
      else if status == 402 then OtherError(Some(PAYMENT_REQUIRED_MESSAGE))
      else if status == 429 then OtherError(Some(RATE_LIMIT_MESSAGE))
      else OtherError(Some("Request error: " + IntToString(status)))
    case ServerResponseFailure(status) =>
      OtherError(Some("Server error: " + IntToString(status)))
    case OtherFailure(message) =>
      OtherError(Some(NetworkErrorMessage(message)))
  }

  function MessageContent(m: OpenaiMessage): string { m.content }

  /** `sendPrompt`: the success value is the first choice's text. */
  function SendPrompt(outcome: HttpOutcome): (r: NetworkResult<string>)
    ensures r.Success? <==>
      outcome.Body? && outcome.response.error.None? &&
      outcome.response.choices.Some? && |outcome.response.choices.value| > 0
    ensures r.Success? ==> r.data == outcome.response.choices.value[0].message.content
  {
    Classify(outcome, MessageContent)
  }

  /**
   * `sendMessage`: the success value is the first choice's message converted
   * by `toAiMessage`, a conversion that is not part of this model.
   */
  function SendMessage(outcome: HttpOutcome, toAiMessage: OpenaiMessage -> AiMessage): (r: NetworkResult<AiMessage>)
    ensures r.Success? <==>
      outcome.Body? && outcome.response.error.None? &&
      outcome.response.choices.Some? && |outcome.response.choices.value| > 0
    ensures r.Success? ==> r.data == toAiMessage(outcome.response.choices.value[0].message)
  {
    Classify(outcome, toAiMessage)
  }

  /** The error message the status handlers and the generic handler produce. */
  lemma StatusMessages(status: int, message: Option<string>)
    ensures SendPrompt(ClientRequestFailure(402)) == OtherError(Some(PAYMENT_REQUIRED_MESSAGE))
    ensures SendPrompt(ClientRequestFailure(429)) == OtherError(Some(RATE_LIMIT_MESSAGE))
    ensures status != 401 && status != 402 && status != 429 ==>
      SendPrompt(ClientRequestFailure(status)) == OtherError(Some("Request error: " + IntToString(status)))
    ensures SendPrompt(ServerResponseFailure(status)) == OtherError(Some("Server error: " + IntToString(status)))
    ensures SendPrompt(OtherFailure(message)) ==
      OtherError(Some("Network error: " + (if message.Some? then message.value else "Unknown error")))
    ensures SendPrompt(Body(OpenaiResponse(None, None))) == OtherError(Some("Network error: Unknown error"))
    ensures SendPrompt(Body(OpenaiResponse(None, Some([])))) == OtherError(Some("Network error: List is empty."))
  {
    assert NetworkErrorMessage(None) == "Network error: Unknown error";
    assert NetworkErrorMessage(Some(EMPTY_LIST_MESSAGE)) == "Network error: List is empty.";
  }

  /** A body error that does not name the key is passed on as it is. */
  lemma BodyErrorPassedOn(message: string, choices: Option<seq<Choice>>)
    requires !MentionsKey(message)
    ensures SendPrompt(Body(OpenaiResponse(Some(ErrorBody(message)), choices))) == OtherError(Some(message))
  {
  }

  /**
   * The phrases are recognised in any letter case: two messages that agree
   * ignoring case are classified alike, a message like its lower-cased form.
   */
  lemma KeyMentionIgnoresCase(m1: string, m2: string)
    ensures EqualsIgnoreCase(m1, m2) ==> (MentionsKey(m1) <==> MentionsKey(m2))
    ensures MentionsKey(m1) <==> MentionsKey(Lower(m1))
  {
    ContainsIgnoreCaseIgnoresCase(m1, m2, "API key");
    ContainsIgnoreCaseIgnoresCase(m1, m2, "authentication");
  }

  /** For example, a body error "api KEY" means an invalid key. */
  lemma MixedCaseKeyMention(choices: Option<seq<Choice>>)
    ensures SendPrompt(Body(OpenaiResponse(Some(ErrorBody("api KEY")), choices))) == InvalidKey
  {
    var l1, l2 := Lower("api KEY"), Lower("API key");
    assert forall i :: 0 <= i < 7 ==> l1[i] == l2[i];
    assert l1[0..7] == l2;
    assert OccursAt(l1, l2, 0);
  }

  /** `sendMessage` classifies every outcome exactly as `sendPrompt` does; only success values differ. */
  lemma SendMessageClassifiesLikeSendPrompt(outcome: HttpOutcome, toAiMessage: OpenaiMessage -> AiMessage)
    ensures SendMessage(outcome, toAiMessage).Success? <==> SendPrompt(outcome).Success?
    ensures !SendPrompt(outcome).Success? ==>
      match (SendMessage(outcome, toAiMessage), SendPrompt(outcome))
      case (InvalidKey, InvalidKey) => true
      case (OtherError(m1), OtherError(m2)) => m1 == m2
      case _ => false
  {
  }
}
