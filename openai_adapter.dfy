/**
 * The OpenAI-compatible chat adapter (`OpenAILLM`): message conversion, the
 * request options, and the four calls `generateText`, `streamText`,
 * `generateObject` and `streamObject`, each run under the rate-limit retry
 * loop of module Retry. The SDK is an oracle: what it answers at each attempt
 * is an `Exchange` chosen by the caller; the JSON libraries are a `JsonLib`.
 */
module OpenAiAdapter {
  import opened Wrappers
  import opened Json
  import opened KeyRotation
  import opened Retry
  import opened LlmTypes

  // ---------------------------------------------------------------------------
  // Configuration and the shared rotator.

  const DefaultBaseUrl := "https://api.openai.com/v1"

  /** `OpenAIConfig`. */
  datatype LlmConfig = LlmConfig(apiKey: string, model: string, baseUrl: Option<string>,
                                 options: GenerateOptions)

  /** `config.baseURL || 'https://api.openai.com/v1'`: an empty base URL counts as unset. */
  function BaseUrl(config: LlmConfig): (url: string)
    ensures url != ""
    ensures url == DefaultBaseUrl <==>
      (config.baseUrl.None? || config.baseUrl.value == "" || config.baseUrl.value == DefaultBaseUrl)
    ensures url != DefaultBaseUrl ==> config.baseUrl == Some(url)
  {
    if config.baseUrl.Some? && config.baseUrl.value != "" then config.baseUrl.value else DefaultBaseUrl
  }

  /** The constructor: every instance with the same base URL shares the registry's rotator. */
  method Connect(registry: RotatorRegistry, config: LlmConfig) returns (r: Result<KeyRotator, string>)
    requires registry.Valid()
    modifies registry
    ensures registry.Valid()
    ensures r.Success? ==> BaseUrl(config) in registry.instances
                           && registry.instances[BaseUrl(config)] == r.value
                           && multiset(r.value.keys) == multiset(ParseKeys(config.apiKey))
    ensures r.Failure? <==> ParseKeys(config.apiKey) == []
  {
    r := registry.GetInstance(BaseUrl(config), config.apiKey);
    if r.Failure? {
      // a stored rotator whose keys match an empty key list cannot exist
      assert !(old(BaseUrl(config) in registry.instances)
               && multiset(old(registry.instances)[BaseUrl(config)].keys)
                  == multiset(ParseKeys(config.apiKey)));
    }
  }

  // ---------------------------------------------------------------------------
  // The request.

  /** A tool call in the wire format (`type: 'function'`), arguments as JSON text. */
  datatype WireCall = WireCall(id: string, name: string, arguments: string)

  /** A message as the chat-completions endpoint receives it. */
  datatype WireMessage =
    | ToolResult(toolCallId: string, content: string)
    | AssistantTurn(content: string, toolCalls: Option<seq<WireCall>>)
    | Forwarded(message: Message)

  function ToWireCall(lib: JsonLib, tc: ToolCall): WireCall {
    WireCall(tc.id, tc.name, lib.stringify(tc.arguments))
  }

  function ToWire(lib: JsonLib, m: Message): WireMessage {
    match m
    case ToolMessage(id, _, content) => ToolResult(id, content)
    case AssistantMessage(content, calls) =>
      AssistantTurn(content,
        if calls.Some? && |calls.value| > 0
        then Some(seq(|calls.value|, i requires 0 <= i < |calls.value| => ToWireCall(lib, calls.value[i])))
        else None)
    case _ => Forwarded(m)
  }

  /** `convertToOpenAIMessages`: tool results carry their call id, assistant turns carry
      their tool calls with JSON-text arguments (the key is left out when there are none),
      system and user messages go through untouched. */
  function ConvertToOpenAIMessages(lib: JsonLib, msgs: seq<Message>): (r: seq<WireMessage>)
    ensures |r| == |msgs|
    ensures forall i :: 0 <= i < |msgs| ==>
      && (msgs[i].ToolMessage? <==> r[i].ToolResult?)
      && (msgs[i].AssistantMessage? <==> r[i].AssistantTurn?)
      && (r[i].Forwarded? ==> r[i].message == msgs[i])
      && (r[i].ToolResult? ==> r[i].toolCallId == msgs[i].id && r[i].content == msgs[i].content)
      && (r[i].AssistantTurn? ==> r[i].content == msgs[i].content
                                  && (r[i].toolCalls.Some? <==> msgs[i].toolCalls.Some? && msgs[i].toolCalls.value != []))
  {
    seq(|msgs|, i requires 0 <= i < |msgs| => ToWire(lib, msgs[i]))
  }

  /** `input.tools?.forEach(tool => openaiTools.push(...))`, then
      `openaiTools.length > 0 ? openaiTools : undefined`. A tool's schema is already in
      JSON-schema form here. */
  method OpenAiTools(tools: Option<seq<Tool>>) returns (param: Option<seq<Tool>>)
    ensures param.None? <==> tools.None? || tools.value == []
    ensures param.Some? ==> param.value == tools.value
  {
    var openaiTools: seq<Tool> := [];
    if tools.Some? {
      var ts := tools.value;
      for i := 0 to |ts|
        invariant openaiTools == ts[..i]
      {
        openaiTools := openaiTools + [ts[i]];
      }
    }
    param := if |openaiTools| > 0 then Some(openaiTools) else None;
  }

  /** The request every attempt sends. */
  datatype Request = Request(model: string, messages: seq<WireMessage>, tools: Option<seq<Tool>>,
                             sampling: SamplingOptions)

  /** The request of `generateText`/`streamText`: converted messages, tools when there are
      any, and the options resolved against the instance's. */
  predicate TextRequest(r: Request, lib: JsonLib, config: LlmConfig, input: TextInput) {
    && r.model == config.model
    && r.messages == ConvertToOpenAIMessages(lib, input.messages)
    && (r.tools.None? <==> input.tools.None? || input.tools.value == [])
    && (r.tools.Some? ==> r.tools.value == input.tools.value)
    && r.sampling == ResolveOptions(input.options, config.options)
  }

  /** Tool calls that went out in an assistant turn come back as the same calls when the
      JSON library reads back what it wrote. */
  lemma {:induction false} WireCallsRoundTrip(lib: JsonLib, calls: seq<ToolCall>)
    requires forall v: JsonValue :: lib.parse(lib.stringify(v)) == Some(v)
    requires forall c :: c in calls ==> c.rawModelParts.None?
    ensures DecodeCalls(lib.parse, seq(|calls|, i requires 0 <= i < |calls| =>
              ResponseCall("function", calls[i].id, calls[i].name, lib.stringify(calls[i].arguments))))
            == Some(calls)
  {
    var wire := seq(|calls|, i requires 0 <= i < |calls| =>
                  ResponseCall("function", calls[i].id, calls[i].name, lib.stringify(calls[i].arguments)));
    if calls != [] {
      WireCallsRoundTrip(lib, calls[1..]);
      assert wire[1..] == seq(|calls[1..]|, i requires 0 <= i < |calls[1..]| =>
        ResponseCall("function", calls[1..][i].id, calls[1..][i].name, lib.stringify(calls[1..][i].arguments)));
      assert lib.parse(wire[0].arguments) == Some(calls[0].arguments);
      assert calls[0] in calls;
      assert calls == [calls[0]] + calls[1..];
    }
  }

  // ---------------------------------------------------------------------------
  // generateText: one attempt's reply.

  /** A tool call in a completion (`type` is `'function'` for function calls). */
  datatype ResponseCall = ResponseCall(kind: string, id: string, name: string, arguments: string)

  /** `choices[i].message` with its finish reason. */
  datatype Choice = Choice(content: Option<string>, toolCalls: Option<seq<ResponseCall>>,
                           finishReason: Option<string>)

  datatype ChatResponse = ChatResponse(choices: seq<Choice>)

  const NoResponse := LocalError("No response from OpenAI")
  const ArgumentsNotJson := LocalError("tool call arguments are not valid JSON")

  /** The function calls among `calls`, in order. */
  function FunctionCalls(calls: seq<ResponseCall>): (r: seq<ResponseCall>)
    ensures |r| <= |calls|
    ensures forall c :: c in r <==> c in calls && c.kind == "function"
  {
    if calls == [] then []
    else (if calls[0].kind == "function" then [calls[0]] else []) + FunctionCalls(calls[1..])
  }

  /** `JSON.parse` of each call's arguments, in order; the first failure throws. */
  function DecodeCalls(parse: string -> Option<JsonValue>, calls: seq<ResponseCall>): (r: Option<seq<ToolCall>>)
    ensures r.None? <==> exists i :: 0 <= i < |calls| && parse(calls[i].arguments).None?
    ensures r.Some? ==> |r.value| == |calls| && forall i :: 0 <= i < |calls| ==>
      r.value[i] == ToolCall(calls[i].id, calls[i].name, parse(calls[i].arguments).value, None)
  {
    if calls == [] then Some([])
    else
      match parse(calls[0].arguments)
      case None => None
      case Some(args) =>
        match DecodeCalls(parse, calls[1..])
        case None => None
        case Some(rest) => Some([ToolCall(calls[0].id, calls[0].name, args, None)] + rest)
  }

  /** What one `generateText` attempt returns or throws, given what the SDK answered. */
  function TextReply(lib: JsonLib, reply: Result<ChatResponse, Error>): Result<TextOutput, Error> {
    match reply
    case Failure(e) => Failure(e)
    case Success(resp) =>
      if |resp.choices| == 0 then Failure(NoResponse)
      else
        var c := resp.choices[0];
        match c.toolCalls
        case None => Success(TextOutput(c.content, [], c.finishReason))
        case Some(tcs) =>
          match DecodeCalls(lib.parse, FunctionCalls(tcs))
          case None => Failure(ArgumentsNotJson)
          case Some(calls) => Success(TextOutput(c.content, calls, c.finishReason))
  }

  /** The reply's outcome: an SDK error is passed on unchanged; an empty `choices` is
      "No response from OpenAI"; otherwise the first choice's content and finish reason
      with exactly its function calls, decoded, unless one of their arguments is not JSON. */
  lemma TextReplyCases(lib: JsonLib, reply: Result<ChatResponse, Error>)
    ensures reply.Failure? ==> TextReply(lib, reply) == Failure(reply.error)
    ensures reply.Success? && reply.value.choices == [] ==> TextReply(lib, reply) == Failure(NoResponse)
    ensures reply.Success? && reply.value.choices != [] ==>
      var c := reply.value.choices[0];
      var fs := FunctionCalls(c.toolCalls.GetOr([]));
      var r := TextReply(lib, reply);
      && (r.Success? <==> forall i :: 0 <= i < |fs| ==> lib.parse(fs[i].arguments).Some?)
      && (r.Success? ==> r.value.content == c.content && r.value.finishReason == c.finishReason
                         && |r.value.toolCalls| == |fs|
                         && forall i :: 0 <= i < |fs| ==>
                              r.value.toolCalls[i].id == fs[i].id && r.value.toolCalls[i].name == fs[i].name)
      && (r.Failure? ==> r.error == ArgumentsNotJson)
  {
  }

  /** A reply the adapter itself rejects never triggers a retry. */
  lemma LocalRepliesNotThrottled(lib: JsonLib, reply: Result<ChatResponse, Error>)
    requires reply.Success?
    ensures TextReply(lib, reply).Failure? ==> !Is429(TextReply(lib, reply).error)
  {
  }

  // ---------------------------------------------------------------------------
  // streamText: one attempt's chunk loop.

  /** One fragment of a streamed tool call (`delta.tool_calls[j]`). The first fragment of
      a call is taken to carry its id and name (the source asserts them non-null). */
  datatype CallFragment = CallFragment(index: nat, id: string, name: string, arguments: Option<string>)

  datatype Delta = Delta(content: Option<string>, toolCalls: Option<seq<CallFragment>>,
                         finishReason: Option<string>)

  /** A streamed chunk; an absent `choices` is an empty one. */
  datatype CompletionChunk = CompletionChunk(choices: seq<Delta>)

  /** An attempt's stream: the chunks it delivered, then the error it threw, if any. */
  datatype Streamed<C> = Streamed(chunks: seq<C>, failure: Option<Error>)

  /** An entry of `recievedToolCalls`: arguments as the text received so far. */
  datatype Pending = Pending(name: string, id: string, arguments: string)

  const PartialArgumentsError := LocalError("tool call arguments are not partial JSON")

  /** Where fragment `f` lands: the entry at its index when there is one, else a new entry
      pushed at the end. */
  function Landing(calls: seq<Pending>, f: CallFragment): nat {
    if f.index < |calls| then f.index else |calls|
  }

  /** The entries once `f` is taken in: its text is appended to the entry at its index, or
      a new entry is pushed (at the end, whatever its index). */
  function Absorb(calls: seq<Pending>, f: CallFragment): (r: seq<Pending>)
    ensures Landing(calls, f) < |r|
  {
    if f.index < |calls| then
      calls[f.index := calls[f.index].(arguments := calls[f.index].arguments + f.arguments.GetOr(""))]
    else calls + [Pending(f.name, f.id, f.arguments.GetOr(""))]
  }

  /** The tool call yielded for `f`: the entry it landed in, with its text so far parsed
      by partial-json (`'{}'` for a new entry with no text yet). */
  function ShowFragment(parse: string -> Option<JsonValue>, calls: seq<Pending>, f: CallFragment): Option<ToolCall> {
    var e := Absorb(calls, f)[Landing(calls, f)];
    var text := if f.index >= |calls| && e.arguments == "" then "{}" else e.arguments;
    match parse(text)
    case None => None
    case Some(v) => Some(ToolCall(e.id, e.name, v, None))
  }

  /** The entries after the fragments `frags`, in order. */
  function AbsorbAll(calls: seq<Pending>, frags: seq<CallFragment>): seq<Pending> {
    if frags == [] then calls
    else Absorb(AbsorbAll(calls, frags[..|frags| - 1]), frags[|frags| - 1])
  }

  /** The `toolCallChunk` of one chunk, or None when a parse throws. */
  function ShowAll(parse: string -> Option<JsonValue>, calls: seq<Pending>, frags: seq<CallFragment>): Option<seq<ToolCall>> {
    if frags == [] then Some([])
    else
      var prefix := frags[..|frags| - 1];
      match ShowAll(parse, calls, prefix)
      case None => None
      case Some(ts) =>
        match ShowFragment(parse, AbsorbAll(calls, prefix), frags[|frags| - 1])
        case None => None
        case Some(t) => Some(ts + [t])
  }

  /** `toolCalls?.map(...)` over one chunk's fragments, updating `recievedToolCalls`. */
  method AbsorbChunk(parse: string -> Option<JsonValue>, calls: seq<Pending>, frags: seq<CallFragment>)
    returns (calls': seq<Pending>, shown: Option<seq<ToolCall>>)
    ensures shown == ShowAll(parse, calls, frags)
    ensures shown.Some? ==> calls' == AbsorbAll(calls, frags)
  {
    calls' := calls;
    var out: seq<ToolCall> := [];
    for i := 0 to |frags|
      invariant calls' == AbsorbAll(calls, frags[..i])
      invariant ShowAll(parse, calls, frags[..i]) == Some(out)
    {
      assert frags[..i + 1][..i] == frags[..i];
      var shownOne;
      calls', shownOne := TakeFragment(parse, calls', frags[i]);
      if shownOne.None? {
        ShowAllStops(parse, calls, frags, i + 1);
        return calls', None;
      }
      out := out + [shownOne.value];
    }
    assert frags[..|frags|] == frags;
    shown := Some(out);
  }

  /** The body of the `map` callback for one fragment. */
  method TakeFragment(parse: string -> Option<JsonValue>, calls: seq<Pending>, f: CallFragment)
    returns (calls': seq<Pending>, shown: Option<ToolCall>)
    ensures calls' == Absorb(calls, f)
    ensures shown == ShowFragment(parse, calls, f)
  {
    var landing := if f.index < |calls| then f.index else |calls|;
    var isNew := f.index >= |calls|;
    if f.index < |calls| {
      var existing := calls[f.index];
      calls' := calls[f.index := existing.(arguments := existing.arguments + f.arguments.GetOr(""))];
    } else {
      calls' := calls + [Pending(f.name, f.id, f.arguments.GetOr(""))];
    }
    var e := calls'[landing];
    var text := if isNew && e.arguments == "" then "{}" else e.arguments;
    var parsed := parse(text);
    shown := if parsed.None? then None else Some(ToolCall(e.id, e.name, parsed.value, None));
  }

  /** Once a parse has thrown, the later fragments of the chunk are not looked at. */
  lemma {:induction false} ShowAllStops(parse: string -> Option<JsonValue>, calls: seq<Pending>,
                                        frags: seq<CallFragment>, i: nat)
    requires i <= |frags| && ShowAll(parse, calls, frags[..i]).None?
    ensures ShowAll(parse, calls, frags).None?
    decreases |frags| - i
  {
    if i < |frags| {
      assert frags[..i + 1][..i] == frags[..i];
      ShowAllStops(parse, calls, frags, i + 1);
    } else {
      assert frags[..i] == frags;
    }
  }

  /** The state of one attempt's chunk loop. */
  datatype TextStreamState = TextStreamState(calls: seq<Pending>, yielded: seq<TextChunk>, error: Option<Error>)

  /** The loop after `chunks`: a chunk with choices yields its content (or `''`), its
      tool-call chunk, `done` when a finish reason is set, and the finish reason; a chunk
      without choices yields nothing; a failed partial parse ends the attempt. */
  function TextStreamRun(parse: string -> Option<JsonValue>, chunks: seq<CompletionChunk>): TextStreamState {
    if chunks == [] then TextStreamState([], [], None)
    else ChunkStep(parse, TextStreamRun(parse, chunks[..|chunks| - 1]), chunks[|chunks| - 1])
  }

  /** One pass of the chunk loop. */
  function ChunkStep(parse: string -> Option<JsonValue>, s: TextStreamState, c: CompletionChunk): (r: TextStreamState)
    ensures s.error.Some? || c.choices == [] ==> r == s
    ensures r.error.None? && s.error.None? && c.choices != [] ==>
      && r.calls == AbsorbAll(s.calls, c.choices[0].toolCalls.GetOr([]))
      && |r.yielded| == |s.yielded| + 1 && r.yielded[..|s.yielded|] == s.yielded
      && r.yielded[|s.yielded|].contentChunk == c.choices[0].content.GetOr("")
      && (r.yielded[|s.yielded|].done <==> r.yielded[|s.yielded|].finishReason.Some?)
  {
    if s.error.Some? || c.choices == [] then s
    else
      var d := c.choices[0];
      var frags := d.toolCalls.GetOr([]);
      match ShowAll(parse, s.calls, frags)
      case None => s.(error := Some(PartialArgumentsError))
      case Some(ts) =>
        var ys := s.yielded + [TextChunk(d.content.GetOr(""), ts, d.finishReason.Some?, d.finishReason)];
        assert ys[..|s.yielded|] == s.yielded;
        TextStreamState(AbsorbAll(s.calls, frags), ys, None)
  }

  /** One `streamText` attempt: what it yielded, then how it ended. */
  function TextStreamAttempt(lib: JsonLib, s: Streamed<CompletionChunk>): Attempt<TextChunk, ()> {
    var run := TextStreamRun(lib.partialParse, s.chunks);
    Attempt(run.yielded,
            if run.error.Some? then Failure(run.error.value)
            else if s.failure.Some? then Failure(s.failure.value)
            else Success(()))
  }

  /** The body of the chunk loop: the chunk's fragments are absorbed and one text chunk is
      yielded, unless the chunk has no choices; `failed` when partial arguments do not parse. */
  method TakeTextChunk(parse: string -> Option<JsonValue>, calls: seq<Pending>, yielded: seq<TextChunk>, c: CompletionChunk)
    returns (calls': seq<Pending>, yielded': seq<TextChunk>, failed: bool)
    ensures ChunkStep(parse, TextStreamState(calls, yielded, None), c)
         == TextStreamState(calls', yielded', if failed then Some(PartialArgumentsError) else None)
  {
    calls', yielded', failed := calls, yielded, false;
    if c.choices != [] {
      var d := c.choices[0];
      var frags := if d.toolCalls.Some? then d.toolCalls.value else [];
      var absorbed, shown := AbsorbChunk(parse, calls, frags);
      if shown.None? {
        failed := true;
      } else {
        calls' := absorbed;
        yielded' := yielded + [TextChunk(d.content.GetOr(""), shown.value, d.finishReason.Some?, d.finishReason)];
      }
    }
  }

  /** The `for await (const chunk of stream)` loop of one attempt, which stops at the first
      chunk whose partial arguments do not parse. */
  method ChunkLoop(parse: string -> Option<JsonValue>, chunks: seq<CompletionChunk>)
    returns (yielded: seq<TextChunk>, error: Option<Error>)
    ensures TextStreamRun(parse, chunks).yielded == yielded
    ensures TextStreamRun(parse, chunks).error == error
  {
    var calls: seq<Pending> := [];
    yielded := [];
    for i := 0 to |chunks|
      invariant TextStreamRun(parse, chunks[..i]) == TextStreamState(calls, yielded, None)
    {
      assert TextStreamRun(parse, chunks[..i + 1])
          == ChunkStep(parse, TextStreamRun(parse, chunks[..i]), chunks[i]) by {
        assert chunks[..i + 1][..i] == chunks[..i];
      }
      var calls', yielded', failed := TakeTextChunk(parse, calls, yielded, chunks[i]);
      if failed {
        TextStreamStops(parse, chunks, i + 1);
        return yielded, Some(PartialArgumentsError);
      }
      calls, yielded := calls', yielded';
    }
    assert chunks[..|chunks|] == chunks;
    error := None;
  }

  /** One attempt of `streamText`: the chunk loop, then the stream's own failure, if any. */
  method StreamTextAttempt(lib: JsonLib, s: Streamed<CompletionChunk>) returns (a: Attempt<TextChunk, ()>)
    ensures a == TextStreamAttempt(lib, s)
  {
    var yielded, error := ChunkLoop(lib.partialParse, s.chunks);
    if error.Some? {
      return Attempt(yielded, Failure(error.value));
    }
    if s.failure.Some? {
      return Attempt(yielded, Failure(s.failure.value));
    }
    return Attempt(yielded, Success(()));
  }

  /** Once the attempt has failed, the later chunks change nothing. */
  lemma {:induction false} TextStreamStops(parse: string -> Option<JsonValue>, chunks: seq<CompletionChunk>, i: nat)
    requires i <= |chunks| && TextStreamRun(parse, chunks[..i]).error.Some?
    ensures TextStreamRun(parse, chunks) == TextStreamRun(parse, chunks[..i])
    decreases |chunks| - i
  {
    if i < |chunks| {
      assert chunks[..i + 1][..i] == chunks[..i];
      TextStreamStops(parse, chunks, i + 1);
    } else {
      assert chunks[..i] == chunks;
    }
  }

  /** The fragments a run has seen: those of every chunk with choices. */
  function FragmentsOf(chunks: seq<CompletionChunk>): seq<CallFragment> {
    if chunks == [] then []
    else
      var c := chunks[|chunks| - 1];
      FragmentsOf(chunks[..|chunks| - 1])
        + (if c.choices == [] then [] else c.choices[0].toolCalls.GetOr([]))
  }

  /** The text content a run has seen. */
  function ContentOf(chunks: seq<CompletionChunk>): string {
    if chunks == [] then ""
    else
      var c := chunks[|chunks| - 1];
      ContentOf(chunks[..|chunks| - 1]) + (if c.choices == [] then "" else c.choices[0].content.GetOr(""))
  }

  /** The number of chunks with choices. */
  function ChoiceCount(chunks: seq<CompletionChunk>): nat {
    if chunks == [] then 0
    else ChoiceCount(chunks[..|chunks| - 1]) + (if chunks[|chunks| - 1].choices == [] then 0 else 1)
  }

  /** The contents yielded, joined. */
  function Joined(ys: seq<TextChunk>): string {
    if ys == [] then "" else Joined(ys[..|ys| - 1]) + ys[|ys| - 1].contentChunk
  }

  lemma {:induction false} AbsorbAllAppend(calls: seq<Pending>, a: seq<CallFragment>, b: seq<CallFragment>)
    ensures AbsorbAll(calls, a + b) == AbsorbAll(AbsorbAll(calls, a), b)
    decreases |b|
  {
    if b == [] {
      assert a + b == a;
    } else {
      assert (a + b)[..|a + b| - 1] == a + b[..|b| - 1];
      AbsorbAllAppend(calls, a, b[..|b| - 1]);
    }
  }

  /** One pass of the chunk loop that does not fail keeps what was yielded and adds at most
      one chunk, carrying the chunk's content and `done` exactly with a finish reason. */
  lemma ChunkStepYields(parse: string -> Option<JsonValue>, s: TextStreamState, c: CompletionChunk)
    requires s.error.None? && ChunkStep(parse, s, c).error.None?
    ensures var r := ChunkStep(parse, s, c);
      && |r.yielded| == |s.yielded| + (if c.choices == [] then 0 else 1)
      && r.yielded[..|s.yielded|] == s.yielded
      && Joined(r.yielded) == Joined(s.yielded) + (if c.choices == [] then "" else c.choices[0].content.GetOr(""))
      && forall k :: |s.yielded| <= k < |r.yielded| ==> (r.yielded[k].done <==> r.yielded[k].finishReason.Some?)
  {
    var r := ChunkStep(parse, s, c);
    if c.choices == [] {
      assert s.yielded[..|s.yielded|] == s.yielded;
    }
  }

  /** A run that did not fail yielded once per chunk with choices, its content pieces
      joined are all the content received, and `done` is set exactly on the chunks with a
      finish reason. */
  lemma {:induction false} TextStreamYields(parse: string -> Option<JsonValue>, chunks: seq<CompletionChunk>)
    requires TextStreamRun(parse, chunks).error.None?
    ensures var s := TextStreamRun(parse, chunks);
      && |s.yielded| == ChoiceCount(chunks)
      && Joined(s.yielded) == ContentOf(chunks)
      && (forall k :: 0 <= k < |s.yielded| ==> (s.yielded[k].done <==> s.yielded[k].finishReason.Some?))
  {
    if chunks != [] {
      var prefix := chunks[..|chunks| - 1];
      var c := chunks[|chunks| - 1];
      var p := TextStreamRun(parse, prefix);
      var r := TextStreamRun(parse, chunks);
      assert r == ChunkStep(parse, p, c);
      assert p.error.None?;
      TextStreamYields(parse, prefix);
      ChunkStepYields(parse, p, c);
      forall k | 0 <= k < |p.yielded|
        ensures r.yielded[k] == p.yielded[k]
      {
        assert r.yielded[..|p.yielded|][k] == r.yielded[k];
      }
    }
  }

  /** A run that did not fail holds the entries of all its fragments taken in one after
      the other, across chunks. */
  lemma {:induction false} TextStreamEntries(parse: string -> Option<JsonValue>, chunks: seq<CompletionChunk>)
    requires TextStreamRun(parse, chunks).error.None?
    ensures TextStreamRun(parse, chunks).calls == AbsorbAll([], FragmentsOf(chunks))
  {
    if chunks != [] {
      var prefix := chunks[..|chunks| - 1];
      var c := chunks[|chunks| - 1];
      var p := TextStreamRun(parse, prefix);
      assert TextStreamRun(parse, chunks) == ChunkStep(parse, p, c);
      assert p.error.None?;
      TextStreamEntries(parse, prefix);
      var fr := if c.choices == [] then [] else c.choices[0].toolCalls.GetOr([]);
      assert FragmentsOf(chunks) == FragmentsOf(prefix) + fr;
      AbsorbAllAppend([], FragmentsOf(prefix), fr);
      if c.choices == [] {
        assert FragmentsOf(prefix) + fr == FragmentsOf(prefix);
      }
    }
  }

  /** The fragments are numbered in order of first appearance: each fragment's index is
      that of an existing entry or of the next one. */
  predicate InOrder(frags: seq<CallFragment>) {
    forall j :: 0 <= j < |frags| ==> frags[j].index <= |AbsorbAll([], frags[..j])|
  }

  /** The argument text of the fragments with index `i`, joined in order. */
  function ArgsFor(frags: seq<CallFragment>, i: nat): string {
    if frags == [] then ""
    else
      var f := frags[|frags| - 1];
      ArgsFor(frags[..|frags| - 1], i) + (if f.index == i then f.arguments.GetOr("") else "")
  }

  /** When the fragments come in order, entry `i` holds exactly the argument text of the
      fragments with index `i`, and no fragment has an index past the entries. */
  lemma {:induction false} InOrderArguments(frags: seq<CallFragment>)
    requires InOrder(frags)
    ensures var recs := AbsorbAll([], frags);
      && (forall j :: 0 <= j < |frags| ==> frags[j].index < |recs|)
      && (forall i :: 0 <= i < |recs| ==> recs[i].arguments == ArgsFor(frags, i))
      && (forall i: nat :: i >= |recs| ==> ArgsFor(frags, i) == "")
  {
    if frags != [] {
      var prefix := frags[..|frags| - 1];
      InOrderPrefix(frags);
      InOrderArguments(prefix);
      assert frags == prefix + [frags[|frags| - 1]];
      ArgumentsStep(prefix, frags[|frags| - 1]);
    }
  }

  lemma InOrderPrefix(frags: seq<CallFragment>)
    requires frags != [] && InOrder(frags)
    ensures InOrder(frags[..|frags| - 1])
    ensures frags[|frags| - 1].index <= |AbsorbAll([], frags[..|frags| - 1])|
  {
    var prefix := frags[..|frags| - 1];
    forall j | 0 <= j < |prefix|
      ensures prefix[j].index <= |AbsorbAll([], prefix[..j])|
    {
      assert prefix[..j] == frags[..j];
    }
  }

  /** The step of `InOrderArguments`: one more fragment, numbered at most one past the
      entries, keeps every entry's text equal to the text of its index. */
  lemma ArgumentsStep(prefix: seq<CallFragment>, f: CallFragment)
    requires f.index <= |AbsorbAll([], prefix)|
    requires forall j :: 0 <= j < |prefix| ==> prefix[j].index < |AbsorbAll([], prefix)|
    requires forall i :: 0 <= i < |AbsorbAll([], prefix)| ==> AbsorbAll([], prefix)[i].arguments == ArgsFor(prefix, i)
    requires forall i: nat :: i >= |AbsorbAll([], prefix)| ==> ArgsFor(prefix, i) == ""
    ensures var frags := prefix + [f]; var recs := AbsorbAll([], frags);
      && (forall j :: 0 <= j < |frags| ==> frags[j].index < |recs|)
      && (forall i :: 0 <= i < |recs| ==> recs[i].arguments == ArgsFor(frags, i))
      && (forall i: nat :: i >= |recs| ==> ArgsFor(frags, i) == "")
  {
    var frags := prefix + [f];
    assert frags[..|frags| - 1] == prefix;
    forall i: nat
      ensures ArgsFor(frags, i) == ArgsFor(prefix, i) + (if f.index == i then f.arguments.GetOr("") else "")
    {
    }
    forall j | 0 <= j < |frags|
      ensures frags[j].index < |AbsorbAll([], frags)|
    {
      if j < |prefix| { assert frags[j] == prefix[j]; }
    }
  }

  /** Across a whole in-order run that did not fail, each entry of `recievedToolCalls`
      holds the joined argument text of its index. */
  lemma StreamedArguments(parse: string -> Option<JsonValue>, chunks: seq<CompletionChunk>)
    requires TextStreamRun(parse, chunks).error.None?
    requires InOrder(FragmentsOf(chunks))
    ensures var recs := TextStreamRun(parse, chunks).calls;
      forall i :: 0 <= i < |recs| ==> recs[i].arguments == ArgsFor(FragmentsOf(chunks), i)
  {
    TextStreamEntries(parse, chunks);
    InOrderArguments(FragmentsOf(chunks));
  }

  /** A fragment whose index has no entry yet opens a new entry at the end, whatever its
      index: two fragments both numbered 1 with nothing before them make two entries. */
  lemma MisnumberedFragmentsSplit(a: string, b: string)
    ensures var frags := [CallFragment(1, "c", "f", Some(a)), CallFragment(1, "c", "f", Some(b))];
      AbsorbAll([], frags) == [Pending("f", "c", a), Pending("f", "c", b)]
  {
    var frags := [CallFragment(1, "c", "f", Some(a)), CallFragment(1, "c", "f", Some(b))];
    assert frags[..1] == [frags[0]] && [frags[0]][..0] == [];
    assert AbsorbAll([], frags[..1]) == [Pending("f", "c", a)];
  }

  // ---------------------------------------------------------------------------
  // generateObject: one attempt's reply.

  const ParseResponseError := LocalError("Error parsing response from OpenAI")

  /** What one `generateObject` attempt returns or throws: the first choice's content
      repaired, parsed and validated; any failure there is a parse error. */
  function ObjectReply(lib: JsonLib, schema: Schema, reply: Result<ChatResponse, Error>): (r: Result<JsonValue, Error>)
    ensures reply.Failure? ==> r == Failure(reply.error)
    ensures reply.Success? && reply.value.choices == [] ==> r == Failure(NoResponse)
    ensures r.Success? ==> reply.Success? && reply.value.choices[0].content.Some?
                           && RepairParseValidate(lib, schema, reply.value.choices[0].content.value) == Some(r.value)
    ensures reply.Success? && reply.value.choices != [] && r.Failure? ==> r.error == ParseResponseError
  {
    match reply
    case Failure(e) => Failure(e)
    case Success(resp) =>
      if |resp.choices| == 0 then Failure(NoResponse)
      else
        match resp.choices[0].content
        case None => Failure(ParseResponseError)
        case Some(text) =>
          match RepairParseValidate(lib, schema, text)
          case None => Failure(ParseResponseError)
          case Some(v) => Success(v)
  }

  // ---------------------------------------------------------------------------
  // streamObject: one attempt's event loop.

  /** An event of the Responses stream. */
  datatype ResponseEvent =
    | OutputTextDelta(delta: Option<string>)
    | OutputTextDone(text: Option<string>)
    | OtherEvent

  /** The state of one attempt's event loop: `recievedObj`, what was yielded, and the
      error that ended it. */
  datatype ObjectStreamState = ObjectStreamState(buffer: string, yielded: seq<JsonValue>, error: Option<Error>)

  /** A delta with text appends it and yields the partial parse of the buffer (`{}` when
      that throws); a done event with text yields its partial parse or throws; anything
      else is skipped. */
  function ObjectStreamRun(lib: JsonLib, events: seq<ResponseEvent>): ObjectStreamState {
    if events == [] then ObjectStreamState("", [], None)
    else
      var s := ObjectStreamRun(lib, events[..|events| - 1]);
      var e := events[|events| - 1];
      if s.error.Some? then s
      else if e.OutputTextDelta? && e.delta.Some? && e.delta.value != "" then
        var buffer := s.buffer + e.delta.value;
        ObjectStreamState(buffer, s.yielded + [PartialOrEmpty(lib, buffer)], None)
      else if e.OutputTextDone? && e.text.Some? && e.text.value != "" then
        match lib.partialParse(e.text.value)
        case None => s.(error := Some(ParseResponseError))
        case Some(v) => s.(yielded := s.yielded + [v])
      else s
  }

  function ObjectStreamAttempt(lib: JsonLib, s: Streamed<ResponseEvent>): Attempt<JsonValue, ()> {
    var run := ObjectStreamRun(lib, s.chunks);
    Attempt(run.yielded,
            if run.error.Some? then Failure(run.error.value)
            else if s.failure.Some? then Failure(s.failure.value)
            else Success(()))
  }

  /** The `for await (const chunk of stream)` loop of one `streamObject` attempt. */
  method StreamObjectAttempt(lib: JsonLib, s: Streamed<ResponseEvent>) returns (a: Attempt<JsonValue, ()>)
    ensures a == ObjectStreamAttempt(lib, s)
  {
    var recievedObj := "";
    var yielded: seq<JsonValue> := [];
    var events := s.chunks;
    for i := 0 to |events|
      invariant ObjectStreamRun(lib, events[..i]) == ObjectStreamState(recievedObj, yielded, None)
    {
      assert events[..i + 1][..i] == events[..i];
      var e := events[i];
      if e.OutputTextDelta? && e.delta.Some? && e.delta.value != "" {
        recievedObj := recievedObj + e.delta.value;
        var partial := lib.partialParse(recievedObj);
        yielded := yielded + [if partial.Some? then partial.value else EmptyObject];
      } else if e.OutputTextDone? && e.text.Some? && e.text.value != "" {
        var parsed := lib.partialParse(e.text.value);
        if parsed.None? {
          ObjectStreamStops(lib, events, i + 1);
          return Attempt(yielded, Failure(ParseResponseError));
        }
        yielded := yielded + [parsed.value];
      }
    }
    assert events[..|events|] == events;
    if s.failure.Some? {
      return Attempt(yielded, Failure(s.failure.value));
    }
    return Attempt(yielded, Success(()));
  }

  /** Once the attempt has failed, the later events change nothing. */
  lemma {:induction false} ObjectStreamStops(lib: JsonLib, events: seq<ResponseEvent>, i: nat)
    requires i <= |events| && ObjectStreamRun(lib, events[..i]).error.Some?
    ensures ObjectStreamRun(lib, events) == ObjectStreamRun(lib, events[..i])
    decreases |events| - i
  {
    if i < |events| {
      assert events[..i + 1][..i] == events[..i];
      ObjectStreamStops(lib, events, i + 1);
    } else {
      assert events[..i] == events;
    }
  }

  /** The delta text of `events`, joined. */
  function DeltaText(events: seq<ResponseEvent>): string {
    if events == [] then ""
    else
      var e := events[|events| - 1];
      DeltaText(events[..|events| - 1])
        + (if e.OutputTextDelta? && e.delta.Some? then e.delta.value else "")
  }

  /** The number of events that yield: deltas and done events with text. */
  function Signals(events: seq<ResponseEvent>): nat {
    if events == [] then 0
    else
      var e := events[|events| - 1];
      Signals(events[..|events| - 1])
        + (if (e.OutputTextDelta? && e.delta.Some? && e.delta.value != "")
              || (e.OutputTextDone? && e.text.Some? && e.text.value != "") then 1 else 0)
  }

  /** A run that did not fail has buffered every delta, in order, and yielded once per
      delta or done event with text. */
  lemma {:induction false} ObjectStreamSound(lib: JsonLib, events: seq<ResponseEvent>)
    requires ObjectStreamRun(lib, events).error.None?
    ensures ObjectStreamRun(lib, events).buffer == DeltaText(events)
    ensures |ObjectStreamRun(lib, events).yielded| == Signals(events)
  {
    if events != [] {
      ObjectStreamSound(lib, events[..|events| - 1]);
    }
  }

  /** The value yielded for a delta is the partial parse of all delta text so far. */
  lemma DeltaYield(lib: JsonLib, events: seq<ResponseEvent>)
    requires events != [] && ObjectStreamRun(lib, events).error.None?
    requires var e := events[|events| - 1]; e.OutputTextDelta? && e.delta.Some? && e.delta.value != ""
    ensures var ys := ObjectStreamRun(lib, events).yielded;
      ys != [] && ys[|ys| - 1] == PartialOrEmpty(lib, DeltaText(events))
  {
    ObjectStreamSound(lib, events);
  }

  // ---------------------------------------------------------------------------
  // The four calls.

  /** What the world does at one attempt: the time of `getNextKey`, what the SDK call
      produced, and the time `handle429` runs if that was a 429. */
  datatype Exchange<T> = Exchange(drawAt: int, reply: T, failAt: int)

  /** The retry loop's script for a world and a per-attempt outcome. */
  function ScriptOf<T, Y, R>(world: seq<Exchange<T>>, outcome: T -> Attempt<Y, R>): (script: seq<Step<Y, R>>)
    ensures |script| == |world|
    ensures forall i :: 0 <= i < |world| ==>
      script[i] == Step(world[i].drawAt, outcome(world[i].reply), world[i].failAt)
  {
    seq(|world|, i requires 0 <= i < |world| => Step(world[i].drawAt, outcome(world[i].reply), world[i].failAt))
  }

  function TextScript(lib: JsonLib, world: seq<Exchange<Result<ChatResponse, Error>>>): seq<Step<TextChunk, TextOutput>> {
    ScriptOf(world, (r: Result<ChatResponse, Error>) => Attempt([], TextReply(lib, r)))
  }

  function StreamTextScript(lib: JsonLib, world: seq<Exchange<Streamed<CompletionChunk>>>): seq<Step<TextChunk, ()>> {
    ScriptOf(world, (s: Streamed<CompletionChunk>) => TextStreamAttempt(lib, s))
  }

  function ObjectScript(lib: JsonLib, schema: Schema, world: seq<Exchange<Result<ChatResponse, Error>>>): seq<Step<JsonValue, JsonValue>> {
    ScriptOf(world, (r: Result<ChatResponse, Error>) => Attempt([], ObjectReply(lib, schema, r)))
  }

  function StreamObjectScript(lib: JsonLib, world: seq<Exchange<Streamed<ResponseEvent>>>): seq<Step<JsonValue, ()>> {
    ScriptOf(world, (s: Streamed<ResponseEvent>) => ObjectStreamAttempt(lib, s))
  }

  /** `generateText`: the request, then up to `totalKeys + 1` attempts; the result is the
      reply of the last attempt made. `waits` are the sleeps between attempts. */
  method GenerateText(rot: KeyRotator, lib: JsonLib, config: LlmConfig, input: TextInput,
                      world: seq<Exchange<Result<ChatResponse, Error>>>)
    returns (request: Request, outcome: Result<TextOutput, Error>, waits: seq<nat>, ghost turns: seq<Turn>)
    requires rot.Valid() && |world| == |rot.keys| + 1
    modifies rot`cooldownUntil, rot`currentIndex, rot`issued
    ensures rot.Valid() && TextRequest(request, lib, config, input)
    ensures Faithful(rot.keys, TextScript(lib, world), 0, old(rot.cooldownUntil), old(rot.currentIndex), turns)
    ensures Finished(turns)
    ensures outcome == TextReply(lib, world[|turns| - 1].reply)
    ensures |waits| == |turns| - 1 && forall k :: 0 <= k < |waits| ==> waits[k] == turns[k].wait
    ensures rot.issued == old(rot.issued) + DrawnBy(turns)
    ensures rot.cooldownUntil == turns[|turns| - 1].cooldowns
    ensures rot.currentIndex == turns[|turns| - 1].cursor
  {
    var tools := OpenAiTools(input.tools);
    request := Request(config.model, ConvertToOpenAIMessages(lib, input.messages), tools,
                       ResolveOptions(input.options, config.options));
    var script := TextScript(lib, world);
    var emitted;
    emitted, outcome, waits, turns := RunWithRetry(rot, script);
  }

  /** `streamText`: everything every attempt yielded, in order, and how the last ended. */
  method StreamText(rot: KeyRotator, lib: JsonLib, config: LlmConfig, input: TextInput,
                    world: seq<Exchange<Streamed<CompletionChunk>>>)
    returns (request: Request, yielded: seq<TextChunk>, outcome: Result<(), Error>, waits: seq<nat>,
             ghost turns: seq<Turn>)
    requires rot.Valid() && |world| == |rot.keys| + 1
    modifies rot`cooldownUntil, rot`currentIndex, rot`issued
    ensures rot.Valid() && TextRequest(request, lib, config, input)
    ensures Faithful(rot.keys, StreamTextScript(lib, world), 0, old(rot.cooldownUntil), old(rot.currentIndex), turns)
    ensures Finished(turns)
    ensures outcome == TextStreamAttempt(lib, world[|turns| - 1].reply).ending
    ensures yielded == EmittedUpTo(StreamTextScript(lib, world), |turns|)
    ensures |waits| == |turns| - 1 && forall k :: 0 <= k < |waits| ==> waits[k] == turns[k].wait
    ensures rot.issued == old(rot.issued) + DrawnBy(turns)
    ensures rot.cooldownUntil == turns[|turns| - 1].cooldowns
    ensures rot.currentIndex == turns[|turns| - 1].cursor
  {
    var tools := OpenAiTools(input.tools);
    request := Request(config.model, ConvertToOpenAIMessages(lib, input.messages), tools,
                       ResolveOptions(input.options, config.options));
    yielded, outcome, waits, turns := RunWithRetry(rot, StreamTextScript(lib, world));
  }

  /** `generateObject`: converted messages, no tools. */
  method GenerateObject(rot: KeyRotator, lib: JsonLib, config: LlmConfig, input: ObjectInput,
                        world: seq<Exchange<Result<ChatResponse, Error>>>)
    returns (request: Request, outcome: Result<JsonValue, Error>, waits: seq<nat>, ghost turns: seq<Turn>)
    requires rot.Valid() && |world| == |rot.keys| + 1
    modifies rot`cooldownUntil, rot`currentIndex, rot`issued
    ensures rot.Valid()
    ensures request == Request(config.model, ConvertToOpenAIMessages(lib, input.messages), None,
                               ResolveOptions(input.options, config.options))
    ensures Faithful(rot.keys, ObjectScript(lib, input.schema, world), 0, old(rot.cooldownUntil), old(rot.currentIndex), turns)
    ensures Finished(turns)
    ensures outcome == ObjectReply(lib, input.schema, world[|turns| - 1].reply)
    ensures |waits| == |turns| - 1 && forall k :: 0 <= k < |waits| ==> waits[k] == turns[k].wait
    ensures rot.issued == old(rot.issued) + DrawnBy(turns)
    ensures rot.cooldownUntil == turns[|turns| - 1].cooldowns
    ensures rot.currentIndex == turns[|turns| - 1].cursor
  {
    request := Request(config.model, ConvertToOpenAIMessages(lib, input.messages), None,
                       ResolveOptions(input.options, config.options));
    var emitted;
    emitted, outcome, waits, turns := RunWithRetry(rot, ObjectScript(lib, input.schema, world));
  }

  /** `streamObject`: the messages go out as they are, without conversion. */
  method StreamObject(rot: KeyRotator, lib: JsonLib, config: LlmConfig, input: ObjectInput,
                      world: seq<Exchange<Streamed<ResponseEvent>>>)
    returns (request: Request, yielded: seq<JsonValue>, outcome: Result<(), Error>, waits: seq<nat>,
             ghost turns: seq<Turn>)
    requires rot.Valid() && |world| == |rot.keys| + 1
    modifies rot`cooldownUntil, rot`currentIndex, rot`issued
    ensures rot.Valid()
    ensures request == Request(config.model, seq(|input.messages|, i requires 0 <= i < |input.messages| => Forwarded(input.messages[i])),
                               None, ResolveOptions(input.options, config.options))
    ensures Faithful(rot.keys, StreamObjectScript(lib, world), 0, old(rot.cooldownUntil), old(rot.currentIndex), turns)
    ensures Finished(turns)
    ensures outcome == ObjectStreamAttempt(lib, world[|turns| - 1].reply).ending
    ensures yielded == EmittedUpTo(StreamObjectScript(lib, world), |turns|)
    ensures |waits| == |turns| - 1 && forall k :: 0 <= k < |waits| ==> waits[k] == turns[k].wait
    ensures rot.issued == old(rot.issued) + DrawnBy(turns)
    ensures rot.cooldownUntil == turns[|turns| - 1].cooldowns
    ensures rot.currentIndex == turns[|turns| - 1].cursor
  {
    request := Request(config.model, seq(|input.messages|, i requires 0 <= i < |input.messages| => Forwarded(input.messages[i])),
                       None, ResolveOptions(input.options, config.options));
    yielded, outcome, waits, turns := RunWithRetry(rot, StreamObjectScript(lib, world));
  }
}
