/**
 * The Gemini adapter (`GeminiLLM`): the application's messages become Gemini
 * `contents` and a system instruction, tools become function declarations,
 * and the four calls read tool calls, text and structured output back. There
 * is no key rotation and no retry here. The SDK is an oracle: each call is
 * given the response, or the chunks of the stream, that it receives. Parts are
 * JSON values, so the raw parts of a reply can be replayed verbatim.
 */
module GeminiAdapter {
  import opened Wrappers
  import opened Json
  import opened LlmTypes

  datatype GeminiConfig = GeminiConfig(apiKey: string, model: string, options: GenerateOptions)

  // ---------------------------------------------------------------------------
  // Message conversion.

  /** One entry of `contents`. */
  datatype Content = Content(role: string, parts: seq<JsonValue>)

  /** `{ text }`. */
  function TextPart(text: string): JsonValue {
    JObject(map["text" := JString(text)])
  }

  /** `{ functionCall: { name, args } }`. */
  function FunctionCallPart(name: string, args: JsonValue): JsonValue {
    JObject(map["functionCall" := JObject(map["name" := JString(name), "args" := args])])
  }

  /** `{ functionResponse: { name, response: { result } } }`. */
  function FunctionResponsePart(name: string, result: string): JsonValue {
    JObject(map["functionResponse" := JObject(map["name" := JString(name),
                                                  "response" := JObject(map["result" := JString(result)])])])
  }

  /** `msg.tool_calls?.[0]?.rawModelParts`, when it is there and not empty. */
  function RawPartsOf(toolCalls: Option<seq<ToolCall>>): (r: Option<seq<JsonValue>>)
    ensures r.Some? ==> |r.value| > 0
  {
    if toolCalls.Some? && |toolCalls.value| > 0 && toolCalls.value[0].rawModelParts.Some?
       && |toolCalls.value[0].rawModelParts.value| > 0
    then toolCalls.value[0].rawModelParts
    else None
  }

  /** One `functionCall` part per tool call, in order. */
  function CallParts(calls: seq<ToolCall>): seq<JsonValue> {
    if calls == [] then []
    else CallParts(calls[..|calls| - 1]) + [FunctionCallPart(calls[|calls| - 1].name, calls[|calls| - 1].arguments)]
  }

  /** The parts of an assistant message rebuilt from its fields: the text when it is not
      empty, then the tool calls. */
  function ModelParts(content: string, toolCalls: Option<seq<ToolCall>>): seq<JsonValue> {
    (if content != "" then [TextPart(content)] else [])
    + (if toolCalls.Some? then CallParts(toolCalls.value) else [])
  }

  /** What `convertMessages` returns. */
  datatype Converted = Converted(contents: seq<Content>, systemInstruction: Option<string>)

  /** One message's effect: a system message overwrites the instruction, the others add
      at most one content entry. */
  function ConvertStep(c: Converted, m: Message): Converted {
    match m
    case SystemMessage(content) => c.(systemInstruction := Some(content))
    case UserMessage(content) => c.(contents := c.contents + [Content("user", [TextPart(content)])])
    case AssistantMessage(content, toolCalls) =>
      if RawPartsOf(toolCalls).Some? then c.(contents := c.contents + [Content("model", RawPartsOf(toolCalls).value)])
      else if |ModelParts(content, toolCalls)| > 0 then c.(contents := c.contents + [Content("model", ModelParts(content, toolCalls))])
      else c
    case ToolMessage(_, name, content) =>
      c.(contents := c.contents + [Content("user", [FunctionResponsePart(name, content)])])
  }

  function ConvertAll(msgs: seq<Message>): Converted {
    if msgs == [] then Converted([], None)
    else ConvertStep(ConvertAll(msgs[..|msgs| - 1]), msgs[|msgs| - 1])
  }

  /** The parts of an assistant message without raw parts. */
  method AssistantParts(content: string, toolCalls: Option<seq<ToolCall>>) returns (parts: seq<JsonValue>)
    ensures parts == ModelParts(content, toolCalls)
  {
    parts := [];
    if content != "" {
      parts := parts + [TextPart(content)];
    }
    if toolCalls.Some? && |toolCalls.value| > 0 {
      parts := PushCallParts(parts, toolCalls.value);
    }
  }

  /** `for (const tc of msg.tool_calls) parts.push({ functionCall: ... })`. */
  method PushCallParts(parts: seq<JsonValue>, tcs: seq<ToolCall>) returns (parts': seq<JsonValue>)
    ensures parts' == parts + CallParts(tcs)
  {
    parts' := parts;
    for k := 0 to |tcs|
      invariant parts' == parts + CallParts(tcs[..k])
    {
      assert tcs[..k + 1][..k] == tcs[..k];
      parts' := parts' + [FunctionCallPart(tcs[k].name, tcs[k].arguments)];
    }
    assert tcs[..|tcs|] == tcs;
  }

  /** `convertMessages`. */
  method ConvertMessages(messages: seq<Message>) returns (contents: seq<Content>, systemInstruction: Option<string>)
    ensures Converted(contents, systemInstruction) == ConvertAll(messages)
  {
    contents := [];
    systemInstruction := None;
    for i := 0 to |messages|
      invariant Converted(contents, systemInstruction) == ConvertAll(messages[..i])
    {
      assert messages[..i + 1][..i] == messages[..i];
      match messages[i] {
        case SystemMessage(content) =>
          systemInstruction := Some(content);
        case UserMessage(content) =>
          contents := contents + [Content("user", [TextPart(content)])];
        case AssistantMessage(content, toolCalls) =>
          var rawParts := RawPartsOf(toolCalls);
          if rawParts.Some? {
            contents := contents + [Content("model", rawParts.value)];
          } else {
            var parts := AssistantParts(content, toolCalls);
            if |parts| > 0 {
              contents := contents + [Content("model", parts)];
            }
          }
        case ToolMessage(_, name, content) =>
          contents := contents + [Content("user", [FunctionResponsePart(name, content)])];
      }
    }
    assert messages[..|messages|] == messages;
  }

  /** Conversion works message by message: the contents of a concatenation are the
      concatenated contents, and the later system instruction wins. */
  lemma {:induction false} ConvertAppend(a: seq<Message>, b: seq<Message>)
    ensures ConvertAll(a + b).contents == ConvertAll(a).contents + ConvertAll(b).contents
    ensures ConvertAll(a + b).systemInstruction == OrElse(ConvertAll(b).systemInstruction, ConvertAll(a).systemInstruction)
    decreases |b|
  {
    if b == [] {
      assert a + b == a;
    } else {
      var p := b[..|b| - 1];
      var m := b[|b| - 1];
      assert (a + b)[..|a + b| - 1] == a + p;
      assert ConvertAll(a + b) == ConvertStep(ConvertAll(a + p), m);
      assert ConvertAll(b) == ConvertStep(ConvertAll(p), m);
      ConvertAppend(a, p);
      StepIndependent(ConvertAll(a + p), m);
      StepIndependent(ConvertAll(p), m);
    }
  }

  /** A message adds the same entries whatever came before it. */
  lemma StepIndependent(c: Converted, m: Message)
    ensures ConvertStep(c, m).contents == c.contents + ConvertStep(Converted([], None), m).contents
    ensures ConvertStep(c, m).systemInstruction
         == OrElse(ConvertStep(Converted([], None), m).systemInstruction, c.systemInstruction)
  {
  }

  /** Message `i` is a system message and no later one is. */
  predicate LastSystemAt(msgs: seq<Message>, i: int) {
    0 <= i < |msgs| && msgs[i].SystemMessage? && forall j :: i < j < |msgs| ==> !msgs[j].SystemMessage?
  }

  lemma InstructionStep(c: Converted, m: Message)
    ensures ConvertStep(c, m).systemInstruction == if m.SystemMessage? then Some(m.content) else c.systemInstruction
  {
  }

  /** There is a system instruction exactly when some message is a system message. */
  lemma {:induction false} InstructionIffSystem(msgs: seq<Message>)
    ensures ConvertAll(msgs).systemInstruction.None? <==> forall i :: 0 <= i < |msgs| ==> !msgs[i].SystemMessage?
  {
    if msgs != [] {
      var p := msgs[..|msgs| - 1];
      InstructionIffSystem(p);
      assert ConvertAll(msgs) == ConvertStep(ConvertAll(p), msgs[|msgs| - 1]);
      InstructionStep(ConvertAll(p), msgs[|msgs| - 1]);
      assert forall i :: 0 <= i < |p| ==> msgs[i] == p[i];
    }
  }

  /** The instruction is the content of the last system message: earlier ones are overwritten. */
  lemma {:induction false} InstructionIsLast(msgs: seq<Message>)
    requires ConvertAll(msgs).systemInstruction.Some?
    ensures exists i :: LastSystemAt(msgs, i) && msgs[i].content == ConvertAll(msgs).systemInstruction.value
  {
    var p := msgs[..|msgs| - 1];
    var last := |msgs| - 1;
    assert ConvertAll(msgs) == ConvertStep(ConvertAll(p), msgs[last]);
    InstructionStep(ConvertAll(p), msgs[last]);
    if msgs[last].SystemMessage? {
      assert LastSystemAt(msgs, last);
    } else {
      InstructionIsLast(p);
      var i :| LastSystemAt(p, i) && p[i].content == ConvertAll(p).systemInstruction.value;
      assert msgs[i] == p[i];
      assert LastSystemAt(msgs, i);
    }
  }

  /** System messages never enter `contents`: every entry is a user or a model turn. */
  lemma {:induction false} ContentRoles(msgs: seq<Message>)
    ensures forall i :: 0 <= i < |ConvertAll(msgs).contents| ==>
      ConvertAll(msgs).contents[i].role == "user" || ConvertAll(msgs).contents[i].role == "model"
  {
    if msgs != [] {
      ContentRoles(msgs[..|msgs| - 1]);
    }
  }

  /** A user message is one text part; a tool result is one `functionResponse` part under
      the user role, carrying the tool's name (not its call id). */
  lemma UserAndToolTurns(msgs: seq<Message>, content: string, id: string, name: string)
    ensures ConvertAll(msgs + [UserMessage(content)]).contents
         == ConvertAll(msgs).contents + [Content("user", [TextPart(content)])]
    ensures ConvertAll(msgs + [ToolMessage(id, name, content)]).contents
         == ConvertAll(msgs).contents + [Content("user", [FunctionResponsePart(name, content)])]
  {
    assert (msgs + [UserMessage(content)])[..|msgs|] == msgs;
    assert (msgs + [ToolMessage(id, name, content)])[..|msgs|] == msgs;
  }

  /** An assistant message with neither text nor tool calls is dropped. */
  lemma EmptyAssistantDropped(msgs: seq<Message>, toolCalls: Option<seq<ToolCall>>)
    requires toolCalls.None? || toolCalls.value == []
    ensures ConvertAll(msgs + [AssistantMessage("", toolCalls)]) == ConvertAll(msgs)
  {
    assert (msgs + [AssistantMessage("", toolCalls)])[..|msgs|] == msgs;
  }

  // ---------------------------------------------------------------------------
  // Tools and the request.

  datatype FunctionDeclaration = FunctionDeclaration(name: string, description: string, parameters: JsonValue)

  /** `convertTools`: nothing for an absent or empty list, else one entry holding every
      declaration, in order. */
  function ConvertTools(tools: Option<seq<Tool>>): (r: Option<seq<seq<FunctionDeclaration>>>)
    ensures r.None? <==> tools.None? || |tools.value| == 0
    ensures r.Some? ==> |r.value| == 1 && |r.value[0]| == |tools.value|
    ensures r.Some? ==> forall i :: 0 <= i < |tools.value| ==>
      r.value[0][i] == FunctionDeclaration(tools.value[i].name, tools.value[i].description, tools.value[i].parameters)
  {
    if tools.None? || |tools.value| == 0 then None
    else
      var ts := tools.value;
      Some([seq(|ts|, i requires 0 <= i < |ts| => FunctionDeclaration(ts[i].name, ts[i].description, ts[i].parameters))])
  }

  /** `...(systemInstruction && { systemInstruction })`: an empty instruction is left out. */
  function SpreadInstruction(si: Option<string>): (r: Option<string>)
    ensures r.Some? <==> si.Some? && si.value != []
    ensures r.Some? ==> r == si
  {
    if si.Some? && si.value != [] then si else None
  }

  /** The request: contents, the instruction, tools (text calls) or a JSON response schema
      (object calls), and the options resolved as in the OpenAI adapter. */
  datatype GeminiRequest = GeminiRequest(model: string, contents: seq<Content>, systemInstruction: Option<string>,
                                         tools: Option<seq<seq<FunctionDeclaration>>>,
                                         responseJsonSchema: Option<JsonValue>, sampling: SamplingOptions)

  function TextRequest(config: GeminiConfig, input: TextInput): GeminiRequest {
    var c := ConvertAll(input.messages);
    GeminiRequest(config.model, c.contents, SpreadInstruction(c.systemInstruction), ConvertTools(input.tools),
                  None, ResolveOptions(input.options, config.options))
  }

  function ObjectRequest(config: GeminiConfig, input: ObjectInput, jsonSchema: JsonValue): GeminiRequest {
    var c := ConvertAll(input.messages);
    GeminiRequest(config.model, c.contents, SpreadInstruction(c.systemInstruction), None,
                  Some(jsonSchema), ResolveOptions(input.options, config.options))
  }

  /** The `generateContent` arguments of `generateText` and `streamText`. */
  method BuildTextRequest(config: GeminiConfig, input: TextInput) returns (request: GeminiRequest)
    ensures request == TextRequest(config, input)
  {
    var contents, systemInstruction := ConvertMessages(input.messages);
    request := GeminiRequest(config.model, contents, SpreadInstruction(systemInstruction), ConvertTools(input.tools),
                             None, ResolveOptions(input.options, config.options));
  }

  /** The `generateContent` arguments of `generateObject` and `streamObject`. */
  method BuildObjectRequest(config: GeminiConfig, input: ObjectInput, jsonSchema: JsonValue) returns (request: GeminiRequest)
    ensures request == ObjectRequest(config, input, jsonSchema)
  {
    var contents, systemInstruction := ConvertMessages(input.messages);
    request := GeminiRequest(config.model, contents, SpreadInstruction(systemInstruction), None,
                             Some(jsonSchema), ResolveOptions(input.options, config.options));
  }

  // ---------------------------------------------------------------------------
  // Replies and tool calls.

  datatype Candidate = Candidate(parts: Option<seq<JsonValue>>, finishReason: Option<string>)

  /** A response, or one chunk of a stream: its candidates and the SDK's `text` accessor. */
  datatype GeminiResponse = GeminiResponse(candidates: seq<Candidate>, text: Option<string>)

  /** What `generateContentStream` delivers: the chunks it produced, then the error it threw
      after them, if any (an error opening the stream is one with no chunks before it). */
  datatype GeminiStream = GeminiStream(chunks: seq<GeminiResponse>, failure: Option<string>)

  /** `candidates?.[0]?.content?.parts || []`. */
  function ResponseParts(r: GeminiResponse): seq<JsonValue> {
    if |r.candidates| > 0 && r.candidates[0].parts.Some? then r.candidates[0].parts.value else []
  }

  /** `candidates?.[0]?.finishReason`, with the empty string read as absent (`||`). */
  function FinishReason(r: GeminiResponse): (f: Option<string>)
    ensures f.Some? ==> f.value != []
  {
    if |r.candidates| > 0 && r.candidates[0].finishReason.Some? && r.candidates[0].finishReason.value != []
    then r.candidates[0].finishReason else None
  }

  /** `response.text || ''`. */
  function TextOf(r: GeminiResponse): string {
    r.text.GetOr("")
  }

  datatype FunctionCall = FunctionCall(name: string, args: JsonValue)

  function StringField(v: JsonValue, name: string): string {
    match Field(v, name)
    case Some(JString(s)) => s
    case _ => ""
  }

  /** `part.functionCall`, when it is truthy. */
  function FunctionCallOf(part: JsonValue): Option<FunctionCall> {
    match Field(part, "functionCall")
    case Some(fc) =>
      if Truthy(fc) then Some(FunctionCall(StringField(fc, "name"), Field(fc, "args").GetOr(JNull))) else None
    case None => None
  }

  /** `` `call_${name}_${Date.now()}` ``, with the clock reading passed in as `stamp`. */
  function CallId(name: string, stamp: string): string {
    "call_" + name + "_" + stamp
  }

  function CallOfPart(part: JsonValue, stamp: string): seq<ToolCall> {
    match FunctionCallOf(part)
    case Some(fc) => [ToolCall(CallId(fc.name, stamp), fc.name, fc.args, None)]
    case None => []
  }

  /** The tool calls of a list of parts, in order. */
  function CallsOf(parts: seq<JsonValue>, stamp: string): seq<ToolCall> {
    if parts == [] then []
    else CallsOf(parts[..|parts| - 1], stamp) + CallOfPart(parts[|parts| - 1], stamp)
  }

  /** The loop over the parts that pushes one tool call per `functionCall` part. */
  method ExtractCalls(parts: seq<JsonValue>, stamp: string) returns (calls: seq<ToolCall>)
    ensures calls == CallsOf(parts, stamp)
  {
    calls := [];
    for i := 0 to |parts|
      invariant calls == CallsOf(parts[..i], stamp)
    {
      assert parts[..i + 1][..i] == parts[..i];
      var part := parts[i];
      var fc := FunctionCallOf(part);
      if fc.Some? {
        calls := calls + [ToolCall(CallId(fc.value.name, stamp), fc.value.name, fc.value.args, None)];
      }
    }
    assert parts[..|parts|] == parts;
  }

  lemma {:induction false} CallsOfAppend(a: seq<JsonValue>, b: seq<JsonValue>, stamp: string)
    ensures CallsOf(a + b, stamp) == CallsOf(a, stamp) + CallsOf(b, stamp)
    decreases |b|
  {
    if b == [] {
      assert a + b == a;
    } else {
      assert (a + b)[..|a + b| - 1] == a + b[..|b| - 1];
      CallsOfAppend(a, b[..|b| - 1], stamp);
    }
  }

  /** Every extracted call comes from a `functionCall` part, names itself by the call's
      name, and carries no raw parts; there are never more calls than parts. */
  lemma {:induction false} CallsOfShape(parts: seq<JsonValue>, stamp: string)
    ensures |CallsOf(parts, stamp)| <= |parts|
    ensures forall i :: 0 <= i < |CallsOf(parts, stamp)| ==>
      var c := CallsOf(parts, stamp)[i];
      c.rawModelParts.None? && c.id == CallId(c.name, stamp)
      && exists j :: 0 <= j < |parts| && FunctionCallOf(parts[j]) == Some(FunctionCall(c.name, c.arguments))
  {
    if parts != [] {
      var p := parts[..|parts| - 1];
      CallsOfShape(p, stamp);
      forall i | 0 <= i < |CallsOf(p, stamp)|
        ensures
          exists j :: 0 <= j < |parts| && FunctionCallOf(parts[j])
            == Some(FunctionCall(CallsOf(p, stamp)[i].name, CallsOf(p, stamp)[i].arguments))
      {
        var c := CallsOf(p, stamp)[i];
        var j :| 0 <= j < |p| && FunctionCallOf(p[j]) == Some(FunctionCall(c.name, c.arguments));
        assert parts[j] == p[j];
      }
    }
  }

  /** `calls` are `plain` with the first of them carrying `raw` as its raw model parts. */
  predicate FirstCarries(calls: seq<ToolCall>, plain: seq<ToolCall>, raw: seq<JsonValue>) {
    |calls| == |plain|
    && (|calls| > 0 ==> calls[0] == plain[0].(rawModelParts := Some(raw)))
    && forall i :: 0 < i < |calls| ==> calls[i] == plain[i]
  }

  /** `toolCalls[0].rawModelParts = parts` when there is a first call. */
  function AttachRaw(calls: seq<ToolCall>, raw: seq<JsonValue>): (r: seq<ToolCall>)
    ensures FirstCarries(r, calls, raw) || (calls == [] && r == [])
  {
    if |calls| > 0 then calls[0 := calls[0].(rawModelParts := Some(raw))] else calls
  }

  // ---------------------------------------------------------------------------
  // generateText.

  /** What `generateText` makes of a response. */
  function TextOutputOf(resp: GeminiResponse, stamp: string): TextOutput {
    var parts := ResponseParts(resp);
    var calls := CallsOf(parts, stamp);
    TextOutput(Some(TextOf(resp)), if |parts| > 0 then AttachRaw(calls, parts) else calls,
               Some(FinishReason(resp).GetOr("stop")))
  }

  /** `generateText`; the SDK's answer is `reply`, and an error it throws passes through. */
  method GenerateText(config: GeminiConfig, input: TextInput, reply: Result<GeminiResponse, string>, stamp: string)
    returns (request: GeminiRequest, output: Result<TextOutput, string>)
    ensures request == TextRequest(config, input)
    ensures reply.Failure? ==> output == Failure(reply.error)
    ensures reply.Success? ==> output == Success(TextOutputOf(reply.value, stamp))
  {
    request := BuildTextRequest(config, input);
    if reply.Failure? {
      return request, Failure(reply.error);
    }
    var response := reply.value;
    var responseParts := ResponseParts(response);
    var toolCalls := ExtractCalls(responseParts, stamp);
    if |toolCalls| > 0 && |responseParts| > 0 {
      toolCalls := toolCalls[0 := toolCalls[0].(rawModelParts := Some(responseParts))];
    }
    output := Success(TextOutput(Some(TextOf(response)), toolCalls, Some(FinishReason(response).GetOr("stop"))));
  }

  /** The tool calls are the `functionCall` parts in order, the first carrying every part
      of the response; text defaults to '' and the finish reason to 'stop'. */
  lemma GeneratedText(resp: GeminiResponse, stamp: string)
    ensures var out := TextOutputOf(resp, stamp);
      FirstCarries(out.toolCalls, CallsOf(ResponseParts(resp), stamp), ResponseParts(resp))
      && (resp.text.None? ==> out.content == Some(""))
      && (FinishReason(resp).None? ==> out.finishReason == Some("stop"))
  {
    var parts := ResponseParts(resp);
    if parts == [] {
      assert CallsOf(parts, stamp) == [];
    }
  }

  /** The replay the raw parts exist for: the assistant message built from a reply with
      tool calls converts back to exactly the reply's parts, whatever its text. */
  lemma ReplayRoundTrip(msgs: seq<Message>, resp: GeminiResponse, stamp: string, content: string)
    requires |TextOutputOf(resp, stamp).toolCalls| > 0
    ensures ConvertAll(msgs + [AssistantMessage(content, Some(TextOutputOf(resp, stamp).toolCalls))]).contents
         == ConvertAll(msgs).contents + [Content("model", ResponseParts(resp))]
  {
    var parts := ResponseParts(resp);
    var m := AssistantMessage(content, Some(TextOutputOf(resp, stamp).toolCalls));
    assert RawPartsOf(m.toolCalls) == Some(parts);
    assert (msgs + [m])[..|msgs|] == msgs;
  }

  // ---------------------------------------------------------------------------
  // streamText.

  /** `accumulatedToolCalls`, `allRawParts` and what was yielded so far. */
  datatype TextStreamState = TextStreamState(calls: seq<ToolCall>, raw: seq<JsonValue>, yielded: seq<TextChunk>)

  /** One chunk: its parts join the raw parts, its calls join the accumulated ones (the
      first of which is given a copy of every raw part so far), and one element is
      yielded with this chunk's text, this chunk's calls and the finish reason. The
      yielded calls are as they stand at the yield: when the first accumulated call is
      one of them, it carries the raw parts. */
  function StreamStep(s: TextStreamState, chunk: GeminiResponse, stamp: string): TextStreamState {
    var parts := ResponseParts(chunk);
    var raw := s.raw + parts;
    var chunkCalls := CallsOf(parts, stamp);
    var shown := if s.calls == [] then AttachRaw(chunkCalls, raw) else chunkCalls;
    var finishReason := FinishReason(chunk);
    TextStreamState(AttachRaw(s.calls + chunkCalls, raw), raw,
                    s.yielded + [TextChunk(TextOf(chunk), shown, finishReason.Some?, finishReason)])
  }

  function TextStreamRun(chunks: seq<GeminiResponse>, stamp: string): TextStreamState {
    if chunks == [] then TextStreamState([], [], [])
    else StreamStep(TextStreamRun(chunks[..|chunks| - 1], stamp), chunks[|chunks| - 1], stamp)
  }

  /** The body of the `for await` loop, for one chunk. */
  method StreamChunk(calls: seq<ToolCall>, raw: seq<JsonValue>, yielded: seq<TextChunk>,
                     chunk: GeminiResponse, stamp: string)
    returns (calls': seq<ToolCall>, raw': seq<JsonValue>, yielded': seq<TextChunk>)
    ensures StreamStep(TextStreamState(calls, raw, yielded), chunk, stamp) == TextStreamState(calls', raw', yielded')
  {
    var textContent := TextOf(chunk);
    var chunkParts := ResponseParts(chunk);
    raw' := raw + chunkParts;
    var chunkToolCalls := ExtractCalls(chunkParts, stamp);
    calls' := calls + chunkToolCalls;
    if |calls'| > 0 {
      calls' := calls'[0 := calls'[0].(rawModelParts := Some(raw'))];
    }
    if calls == [] {
      // the first accumulated call is the object just pushed from this chunk
      chunkToolCalls := AttachRaw(chunkToolCalls, raw');
    }
    var finishReason := FinishReason(chunk);
    yielded' := yielded + [TextChunk(textContent, chunkToolCalls, finishReason.Some?, finishReason)];
  }

  /** The `for await` loop of `streamText` over the chunks of the stream. */
  method TextStreamLoop(chunks: seq<GeminiResponse>, stamp: string) returns (yielded: seq<TextChunk>, calls: seq<ToolCall>)
    ensures var run := TextStreamRun(chunks, stamp); yielded == run.yielded && calls == run.calls
  {
    var accumulatedToolCalls: seq<ToolCall> := [];
    var allRawParts: seq<JsonValue> := [];
    yielded := [];
    for i := 0 to |chunks|
      invariant TextStreamRun(chunks[..i], stamp) == TextStreamState(accumulatedToolCalls, allRawParts, yielded)
    {
      assert chunks[..i + 1][..i] == chunks[..i];
      accumulatedToolCalls, allRawParts, yielded := StreamChunk(accumulatedToolCalls, allRawParts, yielded, chunks[i], stamp);
    }
    assert chunks[..|chunks|] == chunks;
    calls := accumulatedToolCalls;
  }

  /** `streamText`. `calls` is the accumulated list at the end: the objects the yielded
      calls share, as a consumer holding them sees them once the stream is over. */
  method StreamText(config: GeminiConfig, input: TextInput, stream: GeminiStream, stamp: string)
    returns (request: GeminiRequest, yielded: seq<TextChunk>, calls: seq<ToolCall>, error: Option<string>)
    ensures request == TextRequest(config, input)
    ensures var run := TextStreamRun(stream.chunks, stamp); yielded == run.yielded && calls == run.calls
    ensures error == stream.failure
    ensures stream.chunks == [] ==> yielded == [] && calls == []
  {
    request := BuildTextRequest(config, input);
    yielded, calls := TextStreamLoop(stream.chunks, stamp);
    error := stream.failure;
  }

  /** Every part of every chunk, in order. */
  function AllParts(chunks: seq<GeminiResponse>): seq<JsonValue> {
    if chunks == [] then [] else AllParts(chunks[..|chunks| - 1]) + ResponseParts(chunks[|chunks| - 1])
  }

  /** After any number of chunks, the raw parts are all parts seen so far and the
      accumulated calls are their tool calls, the first carrying a copy of all of them. */
  lemma {:induction false} StreamAccumulates(chunks: seq<GeminiResponse>, stamp: string)
    ensures TextStreamRun(chunks, stamp).raw == AllParts(chunks)
    ensures var raw := AllParts(chunks);
      FirstCarries(TextStreamRun(chunks, stamp).calls, CallsOf(raw, stamp), raw)
  {
    if chunks != [] {
      var p := chunks[..|chunks| - 1];
      var c := chunks[|chunks| - 1];
      StreamAccumulates(p, stamp);
      var s := TextStreamRun(p, stamp);
      assert TextStreamRun(chunks, stamp) == StreamStep(s, c, stamp);
      CallsOfAppend(AllParts(p), ResponseParts(c), stamp);
      var raw := AllParts(chunks);
      var plain := CallsOf(raw, stamp);
      var acc := s.calls + CallsOf(ResponseParts(c), stamp);
      assert |acc| == |plain|;
      forall i | 0 < i < |acc|
        ensures acc[i] == plain[i]
      {
      }
      if |acc| > 0 {
        assert acc[0].(rawModelParts := Some(raw)) == plain[0].(rawModelParts := Some(raw));
      }
    }
  }

  /** `y` carries the chunk's text, the chunk's calls (all but the first exactly; the first
      may carry raw parts) and its finish reason, and is done exactly when there is one. */
  predicate YieldOfChunk(y: TextChunk, chunk: GeminiResponse, stamp: string) {
    y.contentChunk == TextOf(chunk) && y.done == FinishReason(chunk).Some?
    && y.finishReason == FinishReason(chunk)
    && |y.toolCallChunk| == |CallsOf(ResponseParts(chunk), stamp)|
    && forall j :: 0 < j < |y.toolCallChunk| ==> y.toolCallChunk[j] == CallsOf(ResponseParts(chunk), stamp)[j]
  }

  lemma StepYield(s: TextStreamState, chunk: GeminiResponse, stamp: string)
    ensures |StreamStep(s, chunk, stamp).yielded| == |s.yielded| + 1
    ensures StreamStep(s, chunk, stamp).yielded[..|s.yielded|] == s.yielded
    ensures YieldOfChunk(StreamStep(s, chunk, stamp).yielded[|s.yielded|], chunk, stamp)
  {
  }

  /** One yield per chunk, with that chunk's text and only that chunk's calls; done
      exactly when the chunk has a finish reason. */
  lemma {:induction false} StreamYields(chunks: seq<GeminiResponse>, stamp: string)
    ensures |TextStreamRun(chunks, stamp).yielded| == |chunks|
    ensures forall k :: 0 <= k < |chunks| ==> YieldOfChunk(TextStreamRun(chunks, stamp).yielded[k], chunks[k], stamp)
  {
    if chunks != [] {
      var n := |chunks| - 1;
      var p := chunks[..n];
      var s := TextStreamRun(p, stamp);
      StreamYields(p, stamp);
      var ys := StreamStep(s, chunks[n], stamp).yielded;
      assert TextStreamRun(chunks, stamp).yielded == ys;
      StepYield(s, chunks[n], stamp);
      forall k | 0 <= k < n
        ensures YieldOfChunk(ys[k], chunks[k], stamp)
      {
        YieldKept(ys, s.yielded, k);
        assert chunks[k] == p[k];
      }
    }
  }

  lemma YieldKept(ys: seq<TextChunk>, prefix: seq<TextChunk>, k: nat)
    requires |prefix| <= |ys| && ys[..|prefix|] == prefix && k < |prefix|
    ensures ys[k] == prefix[k]
  {
    assert ys[..|prefix|][k] == ys[k];
  }

  // ---------------------------------------------------------------------------
  // generateObject and streamObject.

  const ObjectParseError := "Error parsing structured response from Gemini"
  const FinalParseError := "Error parsing final structured response from Gemini"

  /** `response.text || '{}'`. */
  function ObjectText(resp: GeminiResponse): (t: string)
    ensures t != []
  {
    if resp.text.Some? && resp.text.value != [] then resp.text.value else "{}"
  }

  /** What `generateObject` makes of a response: the validated repair and parse of its text. */
  function ObjectOutputOf(lib: JsonLib, schema: Schema, resp: GeminiResponse): (r: Result<JsonValue, string>)
    ensures r.Failure? <==> RepairParseValidate(lib, schema, ObjectText(resp)).None?
    ensures r.Failure? ==> r.error == ObjectParseError
    ensures r.Success? ==> Some(r.value) == RepairParseValidate(lib, schema, ObjectText(resp))
  {
    match RepairParseValidate(lib, schema, ObjectText(resp))
    case Some(v) => Success(v)
    case None => Failure(ObjectParseError)
  }

  /** `generateObject`. */
  method GenerateObject(config: GeminiConfig, lib: JsonLib, input: ObjectInput, jsonSchema: JsonValue,
                        reply: Result<GeminiResponse, string>)
    returns (request: GeminiRequest, output: Result<JsonValue, string>)
    ensures request == ObjectRequest(config, input, jsonSchema)
    ensures reply.Failure? ==> output == Failure(reply.error)
    ensures reply.Success? ==> output == ObjectOutputOf(lib, input.schema, reply.value)
  {
    request := BuildObjectRequest(config, input, jsonSchema);
    if reply.Failure? {
      return request, Failure(reply.error);
    }
    output := ObjectOutputOf(lib, input.schema, reply.value);
  }

  /** A reply without text is read as `{}`. */
  lemma MissingTextIsEmptyObject(lib: JsonLib, schema: Schema, resp: GeminiResponse)
    requires resp.text.None? || resp.text == Some("")
    ensures ObjectOutputOf(lib, schema, resp).Success? <==> RepairParseValidate(lib, schema, "{}").Some?
  {
  }

  /** `candidates?.[0]?.content?.parts?.[0]?.text || ''`: only the first part's text counts. */
  function FirstPartText(chunk: GeminiResponse): string {
    var parts := ResponseParts(chunk);
    if |parts| > 0 then StringField(parts[0], "text") else ""
  }

  /** `accumulated` after the given chunks. */
  function Accumulated(chunks: seq<GeminiResponse>): string {
    if chunks == [] then "" else Accumulated(chunks[..|chunks| - 1]) + FirstPartText(chunks[|chunks| - 1])
  }

  /** The partial parses yielded by the loop, one per chunk. */
  function PartialYields(lib: JsonLib, chunks: seq<GeminiResponse>): seq<JsonValue> {
    if chunks == [] then []
    else PartialYields(lib, chunks[..|chunks| - 1]) + [PartialOrEmpty(lib, Accumulated(chunks))]
  }

  datatype ObjectStreamOutcome = ObjectStreamOutcome(yielded: seq<JsonValue>, error: Option<string>)

  /** The partial parses, then, when anything was received, the validated final value or
      the final parse error. */
  function ObjectStreamRun(lib: JsonLib, schema: Schema, chunks: seq<GeminiResponse>): ObjectStreamOutcome {
    var text := Accumulated(chunks);
    var partials := PartialYields(lib, chunks);
    if text == [] then ObjectStreamOutcome(partials, None)
    else
      match RepairParseValidate(lib, schema, text)
      case Some(v) => ObjectStreamOutcome(partials + [v], None)
      case None => ObjectStreamOutcome(partials, Some(FinalParseError))
  }

  /** `streamObject`: a partial parse (or `{}`) after every chunk; a stream that throws ends
      there with its error; otherwise, when anything was received, the validated final value,
      or an error. */
  method StreamObject(config: GeminiConfig, lib: JsonLib, input: ObjectInput, jsonSchema: JsonValue,
                      stream: GeminiStream)
    returns (request: GeminiRequest, yielded: seq<JsonValue>, error: Option<string>)
    ensures request == ObjectRequest(config, input, jsonSchema)
    ensures stream.failure.Some? ==> yielded == PartialYields(lib, stream.chunks) && error == stream.failure
    ensures stream.failure.None? ==>
      ObjectStreamOutcome(yielded, error) == ObjectStreamRun(lib, input.schema, stream.chunks)
  {
    request := BuildObjectRequest(config, input, jsonSchema);
    yielded, error := ObjectStreamLoop(lib, input.schema, stream);
  }

  /** The `for await` loop of `streamObject` and, when the stream did not throw, the final
      parse after it. */
  method ObjectStreamLoop(lib: JsonLib, schema: Schema, stream: GeminiStream)
    returns (yielded: seq<JsonValue>, error: Option<string>)
    ensures stream.failure.Some? ==> yielded == PartialYields(lib, stream.chunks) && error == stream.failure
    ensures stream.failure.None? ==>
      ObjectStreamOutcome(yielded, error) == ObjectStreamRun(lib, schema, stream.chunks)
  {
    var chunks := stream.chunks;
    var accumulated := "";
    yielded := [];
    for i := 0 to |chunks|
      invariant accumulated == Accumulated(chunks[..i]) && yielded == PartialYields(lib, chunks[..i])
    {
      assert chunks[..i + 1][..i] == chunks[..i];
      var text := FirstPartText(chunks[i]);
      accumulated := accumulated + text;
      var partial := lib.partialParse(accumulated);
      yielded := yielded + [if partial.Some? then partial.value else EmptyObject];
    }
    assert chunks[..|chunks|] == chunks;
    if stream.failure.Some? {
      return yielded, stream.failure;
    }
    error := None;
    if accumulated != [] {
      var final := RepairParseValidate(lib, schema, accumulated);
      if final.Some? {
        yielded := yielded + [final.value];
      } else {
        error := Some(FinalParseError);
      }
    }
  }

  /** One yield per chunk, then one validated final value exactly when some text arrived
      and it validates; an error exactly when some text arrived and it does not. */
  lemma ObjectStreamFinal(lib: JsonLib, schema: Schema, chunks: seq<GeminiResponse>)
    ensures var run := ObjectStreamRun(lib, schema, chunks);
      var final := RepairParseValidate(lib, schema, Accumulated(chunks));
      |run.yielded| == |chunks| + (if Accumulated(chunks) != [] && final.Some? then 1 else 0)
      && run.yielded[..|chunks|] == PartialYields(lib, chunks)
      && (run.error.Some? <==> Accumulated(chunks) != [] && final.None?)
  {
    PartialYieldsAt(lib, chunks);
  }

  /** The k-th partial yield is the partial parse of the text of the first k+1 chunks. */
  lemma {:induction false} PartialYieldsAt(lib: JsonLib, chunks: seq<GeminiResponse>)
    ensures |PartialYields(lib, chunks)| == |chunks|
    ensures forall k :: 0 <= k < |chunks| ==>
      PartialYields(lib, chunks)[k] == PartialOrEmpty(lib, Accumulated(chunks[..k + 1]))
  {
    if chunks != [] {
      var p := chunks[..|chunks| - 1];
      PartialYieldsAt(lib, p);
      forall k | 0 <= k < |p|
        ensures PartialYields(lib, chunks)[k] == PartialOrEmpty(lib, Accumulated(chunks[..k + 1]))
      {
        assert chunks[..k + 1] == p[..k + 1];
      }
      assert chunks[..|chunks|] == chunks;
    }
  }
}
