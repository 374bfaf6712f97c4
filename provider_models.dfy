/**
 * The model-list logic of the Gemini, GMICloud and Fireworks provider classes:
 * their default models, `getModelList` (defaults, then the stored provider's
 * models), the existence check in `loadChatModel` / `loadEmbeddingModel`, and
 * `parseAndValidate`. The stored provider, which the classes look up through the
 * server registry, is the parameter `stored`.
 */
module ProviderModels {
  import opened Wrappers
  import opened Json
  import opened Text
  import opened ProviderTypes

  datatype ProviderKind = Gemini | GmiCloud | Fireworks

  /** A provider's validated configuration. */
  datatype ProviderConfig = ProviderConfig(apiKey: string)

  /** The model object `loadChatModel` / `loadEmbeddingModel` construct: which provider's
      class, chat or embedding, and the options it is given. */
  datatype LoadedModel = LoadedModel(kind: ProviderKind, role: ModelKind, apiKey: string,
                                     model: string, baseURL: Option<string>)

  // ---------------------------------------------------------------------------
  // Default models and `getModelList`.

  const GeminiChatDefaults := [ModelEntry("Gemini 3 Flash", "gemini-3-flash-preview")]

  const GmiCloudChatDefaults := [ModelEntry("GPT 5.2", "openai/gpt-5.2")]

  const FireworksChatDefaults := [
    ModelEntry("MiniMax M2.5", "accounts/fireworks/models/minimax-m2p5"),
    ModelEntry("GPT 04 Mini", "accounts/fireworks/models/gpt-oss-120b")]

  /** `getDefaultModels`: each provider's built-in chat models and no embedding model. */
  function DefaultModels(kind: ProviderKind): (r: ModelList)
    ensures r.embedding == []
    ensures 1 <= |r.chat| <= 2
    ensures kind == Fireworks <==> |r.chat| == 2
  {
    match kind
    case Gemini => ModelList(GeminiChatDefaults, [])
    case GmiCloud => ModelList(GmiCloudChatDefaults, [])
    case Fireworks => ModelList(FireworksChatDefaults, [])
  }

  /** `getModelList` of the Gemini and GMICloud classes, and of the Fireworks class with its
      lookup awaited: the defaults alone when no provider is stored under the id, else the
      defaults followed by the stored models, with no de-duplication. */
  function ModelListOf(kind: ProviderKind, stored: Option<ConfigProvider>): (r: ModelList)
    ensures |r.chat| >= |DefaultModels(kind).chat|
    ensures r.chat[..|DefaultModels(kind).chat|] == DefaultModels(kind).chat
    ensures r.embedding[..|DefaultModels(kind).embedding|] == DefaultModels(kind).embedding
    ensures stored.None? ==> r == DefaultModels(kind)
    ensures stored.Some? ==> r.chat[|DefaultModels(kind).chat|..] == stored.value.chatModels
    ensures stored.Some? ==> r.embedding == stored.value.embeddingModels
  {
    var defaults := DefaultModels(kind);
    match stored
    case None => defaults
    case Some(p) => ModelList(defaults.chat + p.chatModels, defaults.embedding + p.embeddingModels)
  }

  /** The error `getModelList` of the Fireworks class throws as written: it reads the model lists
      off the lookup's promise, whose fields are `undefined`, and spreading `undefined` throws
      (the message is the JavaScript engine's). */
  const NotIterable := "configProvider.embeddingModels is not iterable"

  /** Fireworks's `getModelList` as written: whatever is stored, it throws. */
  function FireworksModelListAsWritten(stored: Option<ConfigProvider>): (r: Result<ModelList, string>)
    ensures r.Failure?
  {
    Failure(NotIterable)
  }

  /** `getModelList` with the lookup awaited, as the other two classes write it. */
  function GetModelList(kind: ProviderKind, stored: Option<ConfigProvider>): (r: Result<ModelList, string>)
    ensures r.Success? && r.value == ModelListOf(kind, stored)
  {
    Success(ModelListOf(kind, stored))
  }

  // ---------------------------------------------------------------------------
  // Loading a model.

  function ChatModelError(kind: ProviderKind): string {
    match kind
    case Gemini => "Error Loading Gemini Chat Model. Invalid Model Selected"
    case GmiCloud => "Error Loading GMICloud Chat Model. Invalid Model Selected"
    case Fireworks => "Error Loading Fireworks Chat Model. Invalid Model Selected"
  }

  function EmbeddingModelError(kind: ProviderKind): string {
    match kind
    case Gemini => "Error Loading Gemini Embedding Model. Invalid Model Selected."
    case GmiCloud => "GMICloud Provider does not support embedding models."
    case Fireworks => "Fireworks Provider does not support embedding models."
  }

  /** The base URL each provider's chat model class is built with (Gemini's uses its SDK default). */
  function ChatBaseUrl(kind: ProviderKind): Option<string> {
    match kind
    case Gemini => None
    case GmiCloud => Some("https://api.gmi-serving.com/v1")
    case Fireworks => Some("https://api.fireworks.ai/inference/v1")
  }

  const GeminiEmbeddingBaseUrl := "https://generativelanguage.googleapis.com/v1beta/openai"

  /** `loadChatModel` once `getModelList` has answered: a listing failure propagates, a key
      absent from the chat list throws, and otherwise a model for exactly that key is built. */
  function LoadChat(kind: ProviderKind, config: ProviderConfig, list: Result<ModelList, string>,
                    key: string): (r: Result<LoadedModel, string>)
    ensures list.Failure? ==> r == Failure(list.error)
    ensures list.Success? ==> (r.Success? <==> HasKey(list.value.chat, key))
    ensures list.Success? && r.Failure? ==> r.error == ChatModelError(kind)
    ensures r.Success? ==> r.value == LoadedModel(kind, Chat, config.apiKey, key, ChatBaseUrl(kind))
  {
    match list
    case Failure(e) => Failure(e)
    case Success(models) =>
      if HasKey(models.chat, key) then Success(LoadedModel(kind, Chat, config.apiKey, key, ChatBaseUrl(kind)))
      else Failure(ChatModelError(kind))
  }

  /** `loadChatModel` of each provider class (Fireworks's with its lookup awaited). */
  function LoadChatModel(kind: ProviderKind, config: ProviderConfig, stored: Option<ConfigProvider>,
                         key: string): (r: Result<LoadedModel, string>)
    ensures r.Success? <==> HasKey(ModelListOf(kind, stored).chat, key)
  {
    LoadChat(kind, config, GetModelList(kind, stored), key)
  }

  /** `loadEmbeddingModel`: Gemini checks the key against its embedding list and builds the model
      on a fixed base URL; GMICloud and Fireworks always throw. */
  function LoadEmbeddingModel(kind: ProviderKind, config: ProviderConfig, stored: Option<ConfigProvider>,
                              key: string): (r: Result<LoadedModel, string>)
    ensures kind != Gemini ==> r == Failure(EmbeddingModelError(kind))
    ensures kind == Gemini ==> (r.Success? <==> HasKey(ModelListOf(kind, stored).embedding, key))
    ensures r.Failure? ==> r.error == EmbeddingModelError(kind)
    ensures r.Success? ==>
      r.value == LoadedModel(Gemini, Embedding, config.apiKey, key, Some(GeminiEmbeddingBaseUrl))
  {
    if kind != Gemini then Failure(EmbeddingModelError(kind))
    else if HasKey(ModelListOf(kind, stored).embedding, key) then
      Success(LoadedModel(Gemini, Embedding, config.apiKey, key, Some(GeminiEmbeddingBaseUrl)))
    else Failure(EmbeddingModelError(kind))
  }

  /** Every default chat model loads, whatever is stored under the provider's id. */
  lemma DefaultChatModelsLoad(kind: ProviderKind, config: ProviderConfig, stored: Option<ConfigProvider>, i: nat)
    requires i < |DefaultModels(kind).chat|
    ensures LoadChatModel(kind, config, stored, DefaultModels(kind).chat[i].key).Success?
  {
    var list := ModelListOf(kind, stored);
    assert list.chat[i] == list.chat[..|DefaultModels(kind).chat|][i];
  }

  /** Every stored chat model loads too, and with its own key. */
  lemma StoredChatModelsLoad(kind: ProviderKind, config: ProviderConfig, stored: ConfigProvider, i: nat)
    requires i < |stored.chatModels|
    ensures LoadChatModel(kind, config, Some(stored), stored.chatModels[i].key)
      == Success(LoadedModel(kind, Chat, config.apiKey, stored.chatModels[i].key, ChatBaseUrl(kind)))
  {
    var n := |DefaultModels(kind).chat|;
    var list := ModelListOf(kind, Some(stored));
    assert list.chat[n + i] == list.chat[n..][i];
  }

  /** Fireworks as written can load no chat model at all. */
  lemma FireworksAsWrittenNeverLoads(config: ProviderConfig, stored: Option<ConfigProvider>, key: string)
    ensures LoadChat(Fireworks, config, FireworksModelListAsWritten(stored), key) == Failure(NotIterable)
  {
  }

  /** With the lookup awaited, Fireworks's first default model loads even with nothing stored. */
  lemma FireworksCorrectedLoadsDefault(config: ProviderConfig)
    ensures LoadChatModel(Fireworks, config, None, "accounts/fireworks/models/minimax-m2p5").Success?
  {
    DefaultChatModelsLoad(Fireworks, config, None, 0);
  }

  // ---------------------------------------------------------------------------
  // `parseAndValidate`.

  function DigitChar(d: nat): char
    requires d < 10
  {
    "0123456789"[d]
  }

  function Digits(n: nat): (r: string)
    ensures r != []
    decreases n
  {
    if n < 10 then [DigitChar(n)] else Digits(n / 10) + [DigitChar(n % 10)]
  }

  /** JavaScript's `String(value)` on a JSON value: strings as they are, numbers in decimal,
      arrays as their elements joined by commas (`null` elements as empty), objects as
      `[object Object]`. */
  function JsString(v: JsonValue): string
    decreases v
  {
    match v
    case JNull => "null"
    case JBool(b) => if b then "true" else "false"
    case JNumber(n) => if n < 0 then "-" + Digits(-n) else Digits(n)
    case JString(s) => s
    case JArray(items) =>
      Join(seq(|items|, i requires 0 <= i < |items| => if items[i].JNull? then "" else JsString(items[i])), ',')
    case JObject(_) => "[object Object]"
  }

  const ExpectedObject := "Invalid config provided. Expected object"

  const ApiKeyRequired := "Invalid config provided. API key must be provided"

  /** `parseAndValidate` of all three classes: a falsy or non-object configuration (arrays count
      as objects) is rejected, then a missing or falsy `apiKey`; only the stringified key is kept. */
  function ParseAndValidate(raw: JsonValue): (r: Result<ProviderConfig, string>)
    ensures r.Success? <==> raw.JObject? && "apiKey" in raw.fields && Truthy(raw.fields["apiKey"])
    ensures r.Success? ==> r.value.apiKey == JsString(raw.fields["apiKey"])
    ensures r.Failure? ==> (r.error == ExpectedObject <==> !(raw.JObject? || raw.JArray?))
    ensures r.Failure? ==> r.error in {ExpectedObject, ApiKeyRequired}
  {
    if !Truthy(raw) || !(raw.JObject? || raw.JArray?) then Failure(ExpectedObject)
    else
      match Field(raw, "apiKey")
      case None => Failure(ApiKeyRequired)
      case Some(key) => if !Truthy(key) then Failure(ApiKeyRequired) else Success(ProviderConfig(JsString(key)))
  }

  /** A configuration holding a non-empty string key validates to exactly that key, whatever
      other fields it carries. */
  lemma ParseStringKey(fields: map<string, JsonValue>, key: string)
    requires key != []
    ensures ParseAndValidate(JObject(fields["apiKey" := JString(key)])) == Success(ProviderConfig(key))
  {
  }
}
