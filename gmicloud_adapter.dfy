/**
 * The GMICloud adapter (`GMICloudLLM`): the OpenAI-compatible adapter with
 * `generateObject` and `streamObject` replaced, because the endpoint answers
 * structured requests with fenced JSON. Both prepend a system message carrying
 * the JSON schema and go through the parent's `generateText`/`streamText`;
 * the JSON is then repaired, parsed and validated by hand.
 */
module GmiCloudAdapter {
  import opened Wrappers
  import opened Text
  import opened Json
  import opened KeyRotation
  import opened Retry
  import opened LlmTypes
  import opened OpenAiAdapter

  // ---------------------------------------------------------------------------
  // The request.

  const Instruction := "You must respond with valid JSON only, no markdown fences, no explanation. The JSON must conform to this schema:\n"

  /** The messages sent: one system message with the instruction and the schema's JSON
      text, then the caller's messages unchanged. */
  function WithJsonInstruction(jsonSchema: string, msgs: seq<Message>): (r: seq<Message>)
    ensures |r| == |msgs| + 1 && r[1..] == msgs
    ensures r[0] == SystemMessage(Instruction + jsonSchema)
  {
    [SystemMessage(Instruction + jsonSchema)] + msgs
  }

  /** The options handed to the parent: the caller's temperature or 0, the other options
      as the caller gave them. */
  function ObjectOptions(call: GenerateOptions): (r: GenerateOptions)
    ensures r.temperature.Some?
    ensures call.temperature.Some? ==> r.temperature == call.temperature
    ensures call.temperature.None? ==> r.temperature == Some(0.0)
    ensures r.(temperature := call.temperature) == call
  {
    call.(temperature := Some(call.temperature.GetOr(0.0)))
  }

  /** Through the parent's fallback, a structured request's temperature is the caller's or
      0 — never the instance's or 1.0 — while the other options still fall back to the
      instance's. */
  lemma ObjectSampling(call: GenerateOptions, instance: GenerateOptions)
    ensures var s := ResolveOptions(ObjectOptions(call), instance);
      && s.temperature == call.temperature.GetOr(0.0)
      && s.topP == OrElse(call.topP, instance.topP)
      && s.maxTokens == OrElse(call.maxTokens, instance.maxTokens)
      && s.stopSequences == OrElse(call.stopSequences, instance.stopSequences)
      && s.frequencyPenalty == OrElse(call.frequencyPenalty, instance.frequencyPenalty)
      && s.presencePenalty == OrElse(call.presencePenalty, instance.presencePenalty)
  {
  }

  /** The parent call both methods make: no tools. */
  function ObjectTextInput(jsonSchema: string, input: ObjectInput): TextInput {
    TextInput(WithJsonInstruction(jsonSchema, input.messages), None, ObjectOptions(input.options))
  }

  // ---------------------------------------------------------------------------
  // generateObject.

  /** `result.content?.slice(0, 500)` as it appears in a template string. */
  function Excerpt(content: Option<string>): (r: string)
    ensures content.Some? ==> |r| <= 500 && |r| <= |content.value| && r == content.value[..|r|]
    ensures content.Some? && |content.value| <= 500 ==> r == content.value
  {
    match content
    case None => "undefined"
    case Some(c) => if |c| <= 500 then c else c[..500]
  }

  function ParseError(content: Option<string>): Error {
    LocalError("Error parsing response from GMICloud\nRaw content: " + Excerpt(content))
  }

  /** What `generateObject` makes of the parent's `generateText` result. */
  function ObjectFromText(lib: JsonLib, schema: Schema, result: Result<TextOutput, Error>): (r: Result<JsonValue, Error>)
    ensures result.Failure? ==> r == Failure(result.error)
    ensures r.Success? <==> result.Success? && result.value.content.Some?
                            && RepairParseValidate(lib, schema, result.value.content.value).Some?
    ensures r.Success? ==> Some(r.value) == RepairParseValidate(lib, schema, result.value.content.value)
    ensures result.Success? && r.Failure? ==> r.error == ParseError(result.value.content)
  {
    match result
    case Failure(e) => Failure(e)
    case Success(out) =>
      if out.content.None? then Failure(ParseError(out.content))
      else
        match RepairParseValidate(lib, schema, out.content.value)
        case None => Failure(ParseError(out.content))
        case Some(v) => Success(v)
  }

  /** `generateObject`: the parent's `generateText` with the instruction prepended, then
      repair, parse and validate. */
  method GenerateObject(rot: KeyRotator, lib: JsonLib, config: LlmConfig, jsonSchema: string,
                        input: ObjectInput, world: seq<Exchange<Result<ChatResponse, Error>>>)
    returns (request: Request, outcome: Result<JsonValue, Error>, waits: seq<nat>, ghost turns: seq<Turn>)
    requires rot.Valid() && |world| == |rot.keys| + 1
    modifies rot`cooldownUntil, rot`currentIndex, rot`issued
    ensures rot.Valid() && TextRequest(request, lib, config, ObjectTextInput(jsonSchema, input))
    ensures Faithful(rot.keys, TextScript(lib, world), 0, old(rot.cooldownUntil), old(rot.currentIndex), turns)
    ensures Finished(turns)
    ensures outcome == ObjectFromText(lib, input.schema, TextReply(lib, world[|turns| - 1].reply))
    ensures |waits| == |turns| - 1 && forall k :: 0 <= k < |waits| ==> waits[k] == turns[k].wait
    ensures rot.issued == old(rot.issued) + DrawnBy(turns)
    ensures rot.cooldownUntil == turns[|turns| - 1].cooldowns
    ensures rot.currentIndex == turns[|turns| - 1].cursor
  {
    var result;
    request, result, waits, turns := OpenAiAdapter.GenerateText(rot, lib, config, ObjectTextInput(jsonSchema, input), world);
    outcome := ObjectFromText(lib, input.schema, result);
  }

  // ---------------------------------------------------------------------------
  // Markdown fences.

  /** `s.replace(/^```(?:json)?\s*\n?/, '')`: an opening fence, an optional `json` tag and
      the white space after them. */
  function StripOpeningFence(s: string): (r: string)
    ensures |r| <= |s| && r == s[|s| - |r|..]
    ensures !StartsWith(s, "```") ==> r == s
  {
    if StartsWith(s, "```") then
      var rest := s[3..];
      var tail := if StartsWith(rest, "json") then rest[4..] else rest;
      TrimStartIsSuffix(tail);
      TrimStart(tail)
    else s
  }

  /** `s.replace(/\n?```\s*$/, '')`: a closing fence followed by nothing but white space,
      and the line break before it. */
  function StripClosingFence(s: string): (r: string)
    ensures |r| <= |s| && r == s[..|r|]
  {
    var body := TrimEnd(s);
    if |body| >= 3 && body[|body| - 3..] == "```" then
      var q := |body| - 3;
      if q > 0 && s[q - 1] == '\n' then s[..q - 1] else s[..q]
    else s
  }

  /** The text partial-json sees while streaming. */
  function StripFences(s: string): string {
    StripClosingFence(StripOpeningFence(s))
  }

  /** A reply fenced the way the endpoint fences it comes out as the bare JSON. */
  lemma FencedReply(body: string)
    requires body != [] && !IsSpace(body[0])
    ensures StripFences("```json\n" + body + "\n```") == body
  {
    OpeningFenceRemoved(body);
    var u := body + "\n```";
    ClosingTagCut(u, body);
  }

  lemma OpeningFenceRemoved(body: string)
    requires body != [] && !IsSpace(body[0])
    ensures StripOpeningFence("```json\n" + body + "\n```") == body + "\n```"
  {
    var s := "```json\n" + body + "\n```";
    var u := body + "\n```";
    assert |s| >= 8 && s[..3] == "```" && s[3..7] == "json" && s[7] == '\n' && s[8..] == u;
    OpeningTagSkipped(s);
    assert TrimStart(u) == u by {
      assert u[0] == body[0];
      TrimStartStep(u);
    }
  }

  /** The fence, the `json` tag and the line break after them are all cut. */
  lemma OpeningTagSkipped(s: string)
    requires |s| >= 8 && s[..3] == "```" && s[3..7] == "json" && s[7] == '\n'
    ensures StripOpeningFence(s) == TrimStart(s[8..])
  {
    var rest := s[3..];
    assert rest[..4] == s[3..7] && rest[4..] == s[7..];
    assert s[7..][1..] == s[8..];
    TrimStartStep(s[7..]);
  }

  /** A fence on a line of its own, after the body, is cut with its line break. */
  lemma ClosingTagCut(u: string, body: string)
    requires |u| >= 4 && u[..|u| - 4] == body && u[|u| - 4..] == "\n```"
    ensures StripClosingFence(u) == body
  {
    assert TrimEnd(u) == u by {
      assert u[|u| - 1] == u[|u| - 4..][3] == '`';
      TrimEndStep(u);
    }
    assert u[|u| - 3..] == u[|u| - 4..][1..];
    assert u[|u| - 4] == u[|u| - 4..][0];
  }

  /** Unfenced text reaches partial-json as it is. */
  lemma UnfencedUntouched(s: string)
    requires !StartsWith(s, "```")
    requires var b := TrimEnd(s); !(|b| >= 3 && b[|b| - 3..] == "```")
    ensures StripFences(s) == s
  {
  }

  // ---------------------------------------------------------------------------
  // streamObject: the loop over the parent's stream.

  const FinalParseError := LocalError("Error parsing final response from GMICloud")

  /** `receivedContent`, what was yielded, and the error that ended the loop. */
  datatype FenceStreamState = FenceStreamState(received: string, yielded: seq<JsonValue>, error: Option<Error>)

  /** Each chunk appends its content, yields the partial parse of the unfenced text so
      far (`{}` when that throws), and on `done` also yields the repaired, parsed and
      validated full text, or throws. */
  function FenceStreamRun(lib: JsonLib, schema: Schema, chunks: seq<TextChunk>): FenceStreamState {
    if chunks == [] then FenceStreamState("", [], None)
    else FenceStep(lib, schema, FenceStreamRun(lib, schema, chunks[..|chunks| - 1]), chunks[|chunks| - 1])
  }

  function FenceStep(lib: JsonLib, schema: Schema, s: FenceStreamState, c: TextChunk): FenceStreamState {
    if s.error.Some? then s
    else
      var received := s.received + c.contentChunk;
      var ys := s.yielded + [PartialOrEmpty(lib, StripFences(received))];
      if !c.done then FenceStreamState(received, ys, None)
      else
        match RepairParseValidate(lib, schema, received)
        case None => FenceStreamState(received, ys, Some(FinalParseError))
        case Some(v) => FenceStreamState(received, ys + [v], None)
  }

  lemma {:induction false} FenceStreamStops(lib: JsonLib, schema: Schema, chunks: seq<TextChunk>, i: nat)
    requires i <= |chunks| && FenceStreamRun(lib, schema, chunks[..i]).error.Some?
    ensures FenceStreamRun(lib, schema, chunks) == FenceStreamRun(lib, schema, chunks[..i])
    decreases |chunks| - i
  {
    if i < |chunks| {
      assert chunks[..i + 1][..i] == chunks[..i];
      FenceStreamStops(lib, schema, chunks, i + 1);
    } else {
      assert chunks[..i] == chunks;
    }
  }

  /** The body of the `for await` loop, for one chunk. */
  method FenceChunk(lib: JsonLib, schema: Schema, received: string, yielded: seq<JsonValue>, chunk: TextChunk)
    returns (received': string, yielded': seq<JsonValue>, error: Option<Error>)
    ensures FenceStep(lib, schema, FenceStreamState(received, yielded, None), chunk)
         == FenceStreamState(received', yielded', error)
  {
    received' := received + chunk.contentChunk;
    var cleanContent := StripFences(received');
    var partial := lib.partialParse(cleanContent);
    yielded' := yielded + [if partial.Some? then partial.value else EmptyObject];
    error := None;
    if chunk.done {
      var final := RepairParseValidate(lib, schema, received');
      if final.None? {
        error := Some(FinalParseError);
      } else {
        yielded' := yielded' + [final.value];
      }
    }
  }

  /** The `for await (const chunk of stream)` loop over the chunks the parent yielded. */
  method FenceStream(lib: JsonLib, schema: Schema, chunks: seq<TextChunk>)
    returns (yielded: seq<JsonValue>, error: Option<Error>)
    ensures var run := FenceStreamRun(lib, schema, chunks); yielded == run.yielded && error == run.error
  {
    var receivedContent := "";
    yielded := [];
    for i := 0 to |chunks|
      invariant FenceStreamRun(lib, schema, chunks[..i]) == FenceStreamState(receivedContent, yielded, None)
    {
      assert chunks[..i + 1][..i] == chunks[..i];
      var failure;
      receivedContent, yielded, failure := FenceChunk(lib, schema, receivedContent, yielded, chunks[i]);
      if failure.Some? {
        FenceStreamStops(lib, schema, chunks, i + 1);
        return yielded, failure;
      }
    }
    assert chunks[..|chunks|] == chunks;
    error := None;
  }

  /** The content of a chunk sequence, joined. */
  function ContentJoined(chunks: seq<TextChunk>): string {
    if chunks == [] then "" else ContentJoined(chunks[..|chunks| - 1]) + chunks[|chunks| - 1].contentChunk
  }

  function DoneCount(chunks: seq<TextChunk>): nat {
    if chunks == [] then 0 else DoneCount(chunks[..|chunks| - 1]) + (if chunks[|chunks| - 1].done then 1 else 0)
  }

  /** A loop that did not throw has received all content, in order, and yielded once per
      chunk plus once more per `done` chunk. */
  lemma {:induction false} FenceStreamSound(lib: JsonLib, schema: Schema, chunks: seq<TextChunk>)
    requires FenceStreamRun(lib, schema, chunks).error.None?
    ensures FenceStreamRun(lib, schema, chunks).received == ContentJoined(chunks)
    ensures |FenceStreamRun(lib, schema, chunks).yielded| == |chunks| + DoneCount(chunks)
  {
    if chunks != [] {
      var p := chunks[..|chunks| - 1];
      var c := chunks[|chunks| - 1];
      var before := FenceStreamRun(lib, schema, p);
      assert FenceStreamRun(lib, schema, chunks) == FenceStep(lib, schema, before, c);
      FenceStepGrows(lib, schema, before, c);
      FenceStreamSound(lib, schema, p);
    }
  }

  /** A step that does not throw appends the chunk's content and yields once, or twice on
      `done`; a loop that has thrown stays as it is. */
  lemma FenceStepGrows(lib: JsonLib, schema: Schema, s: FenceStreamState, c: TextChunk)
    ensures s.error.Some? ==> FenceStep(lib, schema, s, c) == s
    ensures FenceStep(lib, schema, s, c).error.None? ==>
      FenceStep(lib, schema, s, c).received == s.received + c.contentChunk &&
      |FenceStep(lib, schema, s, c).yielded| == |s.yielded| + (if c.done then 2 else 1)
  {
  }


  /** The value yielded at a `done` chunk is the validated parse of everything received
      up to it, fences and all (the repair step extracts the JSON). */
  lemma DoneYieldsValidated(lib: JsonLib, schema: Schema, chunks: seq<TextChunk>)
    requires chunks != [] && chunks[|chunks| - 1].done
    requires FenceStreamRun(lib, schema, chunks).error.None?
    ensures var ys := FenceStreamRun(lib, schema, chunks).yielded;
      ys != [] && Some(ys[|ys| - 1]) == RepairParseValidate(lib, schema, ContentJoined(chunks))
  {
    FenceStreamSound(lib, schema, chunks);
  }

  /** `streamObject`: the parent's `streamText` with the instruction prepended; the loop
      throws at a failed final parse, and otherwise the parent's own ending stands. */
  method StreamObject(rot: KeyRotator, lib: JsonLib, config: LlmConfig, jsonSchema: string,
                      input: ObjectInput, world: seq<Exchange<Streamed<CompletionChunk>>>)
    returns (request: Request, yielded: seq<JsonValue>, outcome: Result<(), Error>, waits: seq<nat>,
             ghost turns: seq<Turn>)
    requires rot.Valid() && |world| == |rot.keys| + 1
    modifies rot`cooldownUntil, rot`currentIndex, rot`issued
    ensures rot.Valid() && TextRequest(request, lib, config, ObjectTextInput(jsonSchema, input))
    ensures Faithful(rot.keys, StreamTextScript(lib, world), 0, old(rot.cooldownUntil), old(rot.currentIndex), turns)
    ensures Finished(turns)
    ensures var run := FenceStreamRun(lib, input.schema, EmittedUpTo(StreamTextScript(lib, world), |turns|));
      && yielded == run.yielded
      && outcome == if run.error.Some? then Failure(run.error.value)
                    else TextStreamAttempt(lib, world[|turns| - 1].reply).ending
    ensures |waits| == |turns| - 1 && forall k :: 0 <= k < |waits| ==> waits[k] == turns[k].wait
    ensures rot.issued == old(rot.issued) + DrawnBy(turns)
    ensures rot.cooldownUntil == turns[|turns| - 1].cooldowns
    ensures rot.currentIndex == turns[|turns| - 1].cursor
  {
    var chunks, parentOutcome;
    request, chunks, parentOutcome, waits, turns :=
      OpenAiAdapter.StreamText(rot, lib, config, ObjectTextInput(jsonSchema, input), world);
    var error;
    yielded, error := FenceStream(lib, input.schema, chunks);
    outcome := if error.Some? then Failure(error.value) else parentOutcome;
  }
}
