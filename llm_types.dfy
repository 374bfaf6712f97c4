/**
 * The message, tool and option shapes every chat adapter takes and returns
 * (the `Message` type of the application and the adapters' shared types).
 */
module LlmTypes {
  import opened Wrappers
  import opened Json

  /** A tool call as the application stores it; `rawModelParts` is Gemini's replay record. */
  datatype ToolCall = ToolCall(id: string, name: string, arguments: JsonValue,
                               rawModelParts: Option<seq<JsonValue>>)

  /** A chat message, by role. */
  datatype Message =
    | SystemMessage(content: string)
    | UserMessage(content: string)
    | AssistantMessage(content: string, toolCalls: Option<seq<ToolCall>>)
    | ToolMessage(id: string, name: string, content: string)

  /** A tool offered to the model; `parameters` is its JSON schema, already converted. */
  datatype Tool = Tool(name: string, description: string, parameters: JsonValue)

  /** `GenerateOptions`: every field may be left unset. An absent options object is
      `NoOptions`, since `options?.x` reads `undefined` either way. */
  datatype GenerateOptions = GenerateOptions(
    temperature: Option<real>,
    topP: Option<real>,
    maxTokens: Option<int>,
    stopSequences: Option<seq<string>>,
    frequencyPenalty: Option<real>,
    presencePenalty: Option<real>)

  const NoOptions := GenerateOptions(None, None, None, None, None, None)

  /** The sampling options a request finally carries. */
  datatype SamplingOptions = SamplingOptions(
    temperature: real,
    topP: Option<real>,
    maxTokens: Option<int>,
    stopSequences: Option<seq<string>>,
    frequencyPenalty: Option<real>,
    presencePenalty: Option<real>)

  /** JavaScript's `a ?? b` on optional values. */
  function OrElse<T>(a: Option<T>, b: Option<T>): (r: Option<T>)
    ensures a.Some? ==> r == a
    ensures a.None? ==> r == b
  {
    if a.Some? then a else b
  }

  /** The two-level fallback every request of the OpenAI and Gemini adapters uses: the
      call's option, else the instance's, and a temperature of 1.0 when neither sets one. */
  function ResolveOptions(call: GenerateOptions, instance: GenerateOptions): (r: SamplingOptions)
    ensures r.topP == OrElse(call.topP, instance.topP)
    ensures r.maxTokens == OrElse(call.maxTokens, instance.maxTokens)
    ensures r.stopSequences == OrElse(call.stopSequences, instance.stopSequences)
    ensures r.frequencyPenalty == OrElse(call.frequencyPenalty, instance.frequencyPenalty)
    ensures r.presencePenalty == OrElse(call.presencePenalty, instance.presencePenalty)
  {
    SamplingOptions(
      OrElse(call.temperature, instance.temperature).GetOr(1.0),
      OrElse(call.topP, instance.topP),
      OrElse(call.maxTokens, instance.maxTokens),
      OrElse(call.stopSequences, instance.stopSequences),
      OrElse(call.frequencyPenalty, instance.frequencyPenalty),
      OrElse(call.presencePenalty, instance.presencePenalty))
  }

  /** The temperature is the call's if set, else the instance's, else 1.0; a set value of
      0 is kept (`??`, not `||`). */
  lemma TemperatureFallback(call: GenerateOptions, instance: GenerateOptions)
    ensures call.temperature.Some? ==> ResolveOptions(call, instance).temperature == call.temperature.value
    ensures call.temperature.None? && instance.temperature.Some? ==>
      ResolveOptions(call, instance).temperature == instance.temperature.value
    ensures call.temperature.None? && instance.temperature.None? ==>
      ResolveOptions(call, instance).temperature == 1.0
  {
  }

  /** With no options on either side, the request carries temperature 1.0 and nothing else. */
  lemma ResolveNothing()
    ensures ResolveOptions(NoOptions, NoOptions) == SamplingOptions(1.0, None, None, None, None, None)
  {
  }

  /** The arguments of `generateText` and `streamText`. */
  datatype TextInput = TextInput(messages: seq<Message>, tools: Option<seq<Tool>>,
                                 options: GenerateOptions)

  /** The arguments of `generateObject` and `streamObject`. */
  datatype ObjectInput = ObjectInput(messages: seq<Message>, schema: Schema, options: GenerateOptions)

  /** What `generateText` returns. */
  datatype TextOutput = TextOutput(content: Option<string>, toolCalls: seq<ToolCall>,
                                   finishReason: Option<string>)

  /** One element of a `streamText` stream. */
  datatype TextChunk = TextChunk(contentChunk: string, toolCallChunk: seq<ToolCall>, done: bool,
                                 finishReason: Option<string>)
}
