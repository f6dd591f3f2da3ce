/**
 * SendAiPromptUseCase: choose the AI provider from the preferences, pick the
 * client, base URL, model and key for it, and forward the prompt. Preference
 * reads are inputs; the client's answer (or an exception raised on the way)
 * is an input too.
 */
module AiDispatch {
  import opened Common

  // Base URLs and default models (AiConstants).
  const OPENAI_BASE_URL := "https://api.openai.com/v1"
  const GEMINI_BASE_URL := "https://generativelanguage.googleapis.com/v1beta"
  const GROK_BASE_URL := "https://api.x.ai/v1"
  const DEEPSEEK_BASE_URL := "https://api.deepseek.com/v1"
  const OPENAI_DEFAULT_MODEL := "gpt-4o"
  const GEMINI_DEFAULT_MODEL := "gemini-1.5-pro"
  const GROK_DEFAULT_MODEL := "grok-beta"
  const DEEPSEEK_DEFAULT_MODEL := "deepseek-chat"
  /** The local Ollama server the app uses when no remote provider is chosen. */
  const OLLAMA_URL := "http://127.0.0.1:11434"

  /** The providers the preference can name; `NoProvider` is `AiProvider.None`. */
  datatype AiProvider = NoProvider | Gemini | OpenAI | Grok | DeepSeek

  /** The id stored in the preferences for each provider. */
  function ProviderId(p: AiProvider): int
  {
    match p
    case NoProvider => 0
    case Gemini => 1
    case OpenAI => 2
    case Grok => 3
    case DeepSeek => 4
  }

  /** `AiProvider.entries.find { it.id == id }`. */
  function FindProvider(id: int): (r: Option<AiProvider>)
    ensures r.Some? ==> ProviderId(r.value) == id
    ensures r.None? ==> forall p: AiProvider :: ProviderId(p) != id
  {
    if id == 0 then Some(NoProvider)
    else if id == 1 then Some(Gemini)
    else if id == 2 then Some(OpenAI)
    else if id == 3 then Some(Grok)
    else if id == 4 then Some(DeepSeek)
    else None
  }

  /** The provider the use case talks to: an unknown id means `None`. */
  function ResolveProvider(id: int): (p: AiProvider)
    ensures (exists q: AiProvider :: ProviderId(q) == id) ==> ProviderId(p) == id
    ensures (forall q: AiProvider :: ProviderId(q) != id) ==> p == NoProvider
  {
    match FindProvider(id)
    case Some(q) => q
    case None => NoProvider
  }

  /** A provider's model and key preferences, unset when `None`. */
  datatype ProviderPrefs = ProviderPrefs(model: Option<string>, key: Option<string>)

  /** The preference values the use case reads, `None` where unset. */
  datatype AiPreferences = AiPreferences(
    providerId: Option<int>,
    openaiUseCustomUrl: Option<bool>,
    openaiCustomUrl: Option<string>,
    openai: ProviderPrefs,
    gemini: ProviderPrefs,
    grok: ProviderPrefs,
    deepSeek: ProviderPrefs)

  datatype Client = OllamaClient | OpenaiClient

  /** The `sendPrompt` call the use case makes. */
  datatype AiRequest = AiRequest(client: Client, baseUrl: string, prompt: string, model: string, key: string)

  function OrDefault<T>(o: Option<T>, default: T): T
  {
    match o case Some(v) => v case None => default
  }

  /** The provider the preferences select; an unset preference means `None`. */
  function SelectedProvider(prefs: AiPreferences): AiProvider
  {
    ResolveProvider(OrDefault(prefs.providerId, ProviderId(NoProvider)))
  }

  /** The `when (provider)` of the use case. */
  function Dispatch(prefs: AiPreferences, prompt: string): (req: AiRequest)
    ensures req.prompt == prompt
    ensures req.client == OllamaClient <==> SelectedProvider(prefs) == NoProvider
  {
    match SelectedProvider(prefs)
    case OpenAI =>
      var baseUrl := if OrDefault(prefs.openaiUseCustomUrl, false)
                     then OrDefault(prefs.openaiCustomUrl, "") else OPENAI_BASE_URL;
      AiRequest(OpenaiClient, baseUrl, prompt,
                OrDefault(prefs.openai.model, OPENAI_DEFAULT_MODEL), OrDefault(prefs.openai.key, ""))
    case Gemini =>
      AiRequest(OpenaiClient, GEMINI_BASE_URL, prompt,
                OrDefault(prefs.gemini.model, GEMINI_DEFAULT_MODEL), OrDefault(prefs.gemini.key, ""))
    case Grok =>
      AiRequest(OpenaiClient, GROK_BASE_URL, prompt,
                OrDefault(prefs.grok.model, GROK_DEFAULT_MODEL), OrDefault(prefs.grok.key, ""))
    case DeepSeek =>
      AiRequest(OpenaiClient, DEEPSEEK_BASE_URL, prompt,
                OrDefault(prefs.deepSeek.model, DEEPSEEK_DEFAULT_MODEL), OrDefault(prefs.deepSeek.key, ""))
    case NoProvider =>
      AiRequest(OllamaClient, OLLAMA_URL, prompt, "", "")
  }

  /** What came back from running the request: the client's result, or an exception. */
  datatype Answer = Answered(result: NetworkResult<string>) | RaisedIOException | RaisedOtherException

  /** `invoke(prompt)`: the request made and the result returned. */
  function SendAiPrompt(prefs: AiPreferences, prompt: string, answer: Answer)
    : (r: (AiRequest, NetworkResult<string>))
    ensures r.0 == Dispatch(prefs, prompt)
    ensures answer.Answered? ==> r.1 == answer.result
    ensures answer.RaisedIOException? ==> r.1 == InternetError
    ensures answer.RaisedOtherException? ==> r.1 == OtherError(None)
  {
    var result := match answer
      case Answered(res) => res
      case RaisedIOException => InternetError
      case RaisedOtherException => OtherError(None);
    (Dispatch(prefs, prompt), result)
  }

  /** An id no provider has is treated as `None`: the local Ollama server, no model, no key. */
  lemma UnknownProviderUsesOllama(prefs: AiPreferences, prompt: string)
    requires prefs.providerId.Some? && !(0 <= prefs.providerId.value <= 4)
    ensures Dispatch(prefs, prompt) == AiRequest(OllamaClient, OLLAMA_URL, prompt, "", "")
  {
    assert forall q: AiProvider :: ProviderId(q) != prefs.providerId.value;
  }

  /** With the provider unset the use case also goes to Ollama. */
  lemma UnsetProviderUsesOllama(prefs: AiPreferences, prompt: string)
    requires prefs.providerId.None?
    ensures Dispatch(prefs, prompt) == AiRequest(OllamaClient, OLLAMA_URL, prompt, "", "")
  {
  }

  /** OpenAI takes the custom URL exactly when the flag is set. */
  lemma OpenAiBaseUrl(prefs: AiPreferences, prompt: string)
    requires SelectedProvider(prefs) == OpenAI
    ensures OrDefault(prefs.openaiUseCustomUrl, false) ==>
      Dispatch(prefs, prompt).baseUrl == OrDefault(prefs.openaiCustomUrl, "")
    ensures !OrDefault(prefs.openaiUseCustomUrl, false) ==>
      Dispatch(prefs, prompt).baseUrl == OPENAI_BASE_URL
    ensures Dispatch(prefs, prompt).client == OpenaiClient
  {
  }

  /** The remote providers all use the OpenAI-compatible client, each with its own fixed URL. */
  lemma RemoteProvidersUseOpenaiClient(prefs: AiPreferences, prompt: string)
    ensures SelectedProvider(prefs) == Gemini ==>
      Dispatch(prefs, prompt).client == OpenaiClient && Dispatch(prefs, prompt).baseUrl == GEMINI_BASE_URL
    ensures SelectedProvider(prefs) == Grok ==>
      Dispatch(prefs, prompt).client == OpenaiClient && Dispatch(prefs, prompt).baseUrl == GROK_BASE_URL
    ensures SelectedProvider(prefs) == DeepSeek ==>
      Dispatch(prefs, prompt).client == OpenaiClient && Dispatch(prefs, prompt).baseUrl == DEEPSEEK_BASE_URL
  {
  }

  /** Unset model preferences fall back to each provider's default model, and an unset key to "". */
  lemma DefaultModelsAndKeys(prefs: AiPreferences, prompt: string)
    requires prefs.openai == prefs.gemini == prefs.grok == prefs.deepSeek == ProviderPrefs(None, None)
    ensures var req := Dispatch(prefs, prompt);
      req.key == "" &&
      req.model == match SelectedProvider(prefs)
                   case OpenAI => OPENAI_DEFAULT_MODEL
                   case Gemini => GEMINI_DEFAULT_MODEL
                   case Grok => GROK_DEFAULT_MODEL
                   case DeepSeek => DEEPSEEK_DEFAULT_MODEL
                   case NoProvider => ""
  {
  }
}
