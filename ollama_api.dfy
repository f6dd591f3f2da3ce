/**
 * The local Ollama client (OllamaApi): the request it builds for the
 * generate and chat endpoints and how it wraps the reply. The HTTP exchange
 * is an input: the reply's text, or the exception it raised.
 */
module OllamaApi {
  import opened Common

  /** The model every request names, whatever model the caller passes. */
  const DEFAULT_MODEL := "qwen2.5:7b"
  const UNKNOWN_ERROR := "Unknown error"

  datatype OllamaMessage = OllamaMessage(role: string, content: string)
  datatype GenerateRequest = GenerateRequest(model: string, prompt: string, stream: bool)
  datatype ChatRequest = ChatRequest(model: string, messages: seq<OllamaMessage>, stream: bool)

  /** The decoded reply text, or the message of what was thrown. */
  datatype Reply = Replied(text: string) | Threw(message: Option<string>)

  /** A request together with the result handed back to the caller. */
  datatype Call<R, T> = Call(request: R, result: NetworkResult<T>)

  /** Only the user's messages are sent as "user"; every other type is "assistant". */
  function RoleFor(t: AiMessageType): (role: string)
    ensures role == "user" <==> t == User
    ensures role != "user" ==> role == "assistant"
  {
    if t == User then "user" else "assistant"
  }

  /** The chat history as Ollama messages. */
  function ToOllamaMessages(messages: seq<AiMessage>): (r: seq<OllamaMessage>)
    ensures |r| == |messages|
    ensures forall i :: 0 <= i < |r| ==>
      r[i].content == messages[i].content && r[i].role == RoleFor(messages[i].aiType)
  {
    if messages == [] then []
    else [OllamaMessage(RoleFor(messages[0].aiType), messages[0].content)] + ToOllamaMessages(messages[1..])
  }

  function FailureResult<T>(message: Option<string>): NetworkResult<T>
  {
    OtherError(Some(match message case Some(m) => m case None => UNKNOWN_ERROR))
  }

  /** `sendPrompt`: POST api/generate; `baseUrl` is used, `model` and `key` are not. */
  function SendPrompt(baseUrl: string, prompt: string, model: string, key: string, reply: Reply)
    : (c: Call<GenerateRequest, string>)
    ensures c.request == GenerateRequest(DEFAULT_MODEL, prompt, false)
    ensures reply.Replied? ==> c.result == Success(reply.text)
    ensures reply.Threw? ==>
      (c.result.OtherError? && c.result.message.Some? &&
       c.result.message.value == (if reply.message.Some? then reply.message.value else "Unknown error"))
  {
    var request := GenerateRequest(DEFAULT_MODEL, prompt, false);
    match reply
    case Replied(text) => Call(request, Success(text))
    case Threw(message) => Call(request, FailureResult(message))
  }

  /**
   * `sendMessage`: POST api/chat with the history; the reply becomes a
   * model-typed message stamped with `now` (the clock is an input).
   */
  function SendMessage(baseUrl: string, messages: seq<AiMessage>, model: string, key: string,
                       reply: Reply, now: int)
    : (c: Call<ChatRequest, AiMessage>)
    ensures c.request.model == DEFAULT_MODEL && !c.request.stream
    ensures |c.request.messages| == |messages|
    ensures forall i :: 0 <= i < |messages| ==>
      c.request.messages[i].content == messages[i].content &&
      (c.request.messages[i].role == "user" <==> messages[i].aiType == User) &&
      (messages[i].aiType != User ==> c.request.messages[i].role == "assistant")
    ensures reply.Replied? ==> c.result == Success(AiMessage(reply.text, Model, now))
    ensures reply.Threw? ==>
      (c.result.OtherError? && c.result.message.Some? &&
       c.result.message.value == (if reply.message.Some? then reply.message.value else "Unknown error"))
  {
    var request := ChatRequest(DEFAULT_MODEL, ToOllamaMessages(messages), false);
    match reply
    case Replied(text) => Call(request, Success(AiMessage(text, Model, now)))
    case Threw(message) => Call(request, FailureResult(message))
  }

  /** The messages sent are those given, in the same order, with nothing added or dropped. */
  lemma {:induction false} ChatHistoryPreserved(messages: seq<AiMessage>)
    ensures |ToOllamaMessages(messages)| == |messages|
    ensures forall i :: 0 <= i < |messages| ==>
      ToOllamaMessages(messages)[i] == OllamaMessage(RoleFor(messages[i].aiType), messages[i].content)
    ensures forall a, b :: ToOllamaMessages(a + b) == ToOllamaMessages(a) + ToOllamaMessages(b)
  {
    forall a: seq<AiMessage>, b: seq<AiMessage> ensures ToOllamaMessages(a + b) == ToOllamaMessages(a) + ToOllamaMessages(b) {
      AppendMessages(a, b);
    }
  }

  lemma {:induction false} AppendMessages(a: seq<AiMessage>, b: seq<AiMessage>)
    ensures ToOllamaMessages(a + b) == ToOllamaMessages(a) + ToOllamaMessages(b)
  {
    if a == [] {
      assert a + b == b;
    } else {
      assert (a + b)[1..] == a[1..] + b;
      AppendMessages(a[1..], b);
    }
  }
}
