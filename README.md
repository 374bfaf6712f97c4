# Perplexica model-provider core, in Dafny

This project models the server-side core of a Perplexica fork: the layer that
talks to LLM providers and keeps provider, chat and message records. It covers
these parts:

- **Key rotation** (`KeyRotation`): a round-robin pool of API keys with a
  cooldown per key, shared by every client of one base URL. It also computes the
  hash that decides whether a pool can be reused.
- **Rate-limit retries** (`Retry`): reading `retry-after`, marking a key as
  cooling down and waiting on a 429 response, and the attempt loop around each
  request.
- **LLM adapters**:
  - `OpenAiAdapter`: OpenAI-compatible clients, covering text and object
    generation and streaming with incremental tool-call fragments.
  - `GmiCloudAdapter`: the OpenAI adapter plus JSON-instruction prompting and
    code-fence stripping.
  - `GeminiAdapter`: message conversion, the replay of raw model parts and the
    streaming loops.
- **Provider definitions** (`ProviderModels`): the Gemini, GMI Cloud and
  Fireworks providers' model lists and model loading.
- **Model registry** (`Registry`): the active providers, their initialisation,
  and the add, update, remove and model-edit operations.
- **Convex tables**:
  - `ProviderStore`: providers, looked up by id and by configuration hash, with
    model lists edited in place.
  - `ChatStore`: chats and messages.
- **Config import** (`ServerRegistry`): providers declared in the configuration,
  mapped to stored records and back.
- **HTTP routes**:
  - `ProvidersRoute`: `GET` and `POST /api/providers`.
  - `ChatsRoute`: `GET /api/chats`, which lists chats newest first, deduplicated
    by id.
- **The SQLite-to-Convex migration script** (`Migrate`): `.env` loading, the
  double-encoded JSON unwrapping, and per-table copying.
- **Searches**:
  - `Tavily`: request defaults and the merge of text and image results.
  - `Video`: YouTube video ids, video cards and the ten-card cap.

Each stateful source object is a Dafny `class`: the key rotator and its registry,
the Convex database tables, the model registry, `process.env` and the migration
target. Each of its methods is proved against a specification function on the
old state. Pure computations are functions, and the lemmas beside them state the
source's promises. These include round trips (key parsing and joining, `.env`
lines, config records, the Gemini replay record and the JSON unwrapping), the
multiset criterion under which key pools are shared, and round-robin order.
Other examples are preserved invariants (unique ids, provider order) and the
error cases of each route.

Everything the core calls but does not define is a parameter. This covers the
provider SDKs, `Date.now`, `crypto.randomUUID`, the JSON libraries, zod
validation, the LLM's answers and the Tavily client.

## Model

| member | source | states |
|---|---|---|
| Text.Trim | src/lib/models/keyRotator.ts:23 | the trimmed string neither starts nor ends with white space |
| Text.TrimShape | src/lib/models/keyRotator.ts:23 | `trim` keeps one contiguous piece of the string and removes only white space on both sides of it |
| Text.TrimmedChars | src/lib/models/keyRotator.ts:23 | every character `trim` keeps occurs in the input, so a comma-free piece stays comma-free |
| Text.Split | src/lib/models/keyRotator.ts:22 | `split(',')` yields at least one piece and no piece contains the separator |
| Text.JoinSplit | src/lib/models/keyRotator.ts:22-26 | joining the pieces of a split with the same separator gives back the string |
| Text.SplitJoin | src/lib/models/keyRotator.ts:22-26 | splitting the join of separator-free pieces gives back exactly those pieces |
| Text.JoinInjective | src/lib/models/keyRotator.ts:26 | joins of non-empty separator-free lists are equal only for equal lists |
| Text.IndexOfChar | src/lib/db/migrate.ts:28-29 | `indexOf` gives the first occurrence of the character, or the length where the source answers -1 (both directions) |
| Text.Sort | src/lib/models/keyRotator.ts:25 | `sort()` on strings yields a lexicographically sorted permutation of its input |
| Text.SortedUnique | src/lib/models/keyRotator.ts:25 | a multiset of strings has exactly one sorted arrangement, so the hash does not depend on input order |
| Text.LexTotal | src/lib/models/keyRotator.ts:25 | the string order used by `sort()` is total |
| Text.LexAntisymmetric | src/lib/models/keyRotator.ts:25 | the string order used by `sort()` is antisymmetric |
| Text.LexTransitive | src/lib/models/keyRotator.ts:25 | the string order used by `sort()` is transitive |
| Json.RepairParseValidate | src/lib/models/providers/openai/openaiLLM.ts:380-393 | `schema.parse(JSON.parse(repairJson(text)))` succeeds exactly when all three steps succeed, and yields the validated value |
| Json.PartialOrEmpty | src/lib/models/providers/openai/openaiLLM.ts:458-467 | a partial parse that throws yields `{}`; otherwise the parsed value |
| Json.Coalesced | convex/messages.ts:43 | JavaScript's `??` on an optional value: missing and `null` give the default, anything else is kept |
| LlmTypes.OrElse | src/lib/models/providers/openai/openaiLLM.ts:188 | `a ?? b` is `a` when set and `b` otherwise |
| LlmTypes.ResolveOptions | src/lib/models/providers/openai/openaiLLM.ts:184-199 | every sampling option is the call's value if set, else the instance's |
| LlmTypes.TemperatureFallback | src/lib/models/providers/gemini/geminiLLM.ts:120-121 | the temperature is the call's, else the instance's, else 1.0; an explicit 0 is kept |
| LlmTypes.ResolveNothing | src/lib/models/providers/openai/openaiLLM.ts:184-199 | with no options anywhere a request carries temperature 1.0 and nothing else |
| KeyRotation.TrimmedNonEmpty | src/lib/models/keyRotator.ts:30-33 | the kept keys are non-empty, comma-free and trimmed, and never more than the pieces |
| KeyRotation.ParseKeys | src/lib/models/keyRotator.ts:30-33 | every parsed key is non-empty, comma-free and has no white space at either end |
| KeyRotation.ParseKeysJoin | src/lib/models/keyRotator.ts:30-33 | parsing the comma-join of well-formed keys gives back exactly those keys, in order |
| KeyRotation.TrimmedKeysKept | src/lib/models/keyRotator.ts:32-33 | trimming and filtering an already well-formed key list changes nothing |
| KeyRotation.HashOfKeysIff | src/lib/models/keyRotator.ts:20-27 | two key lists hash alike exactly when they hold the same keys with multiplicity, in any order |
| KeyRotation.KeyHashIff | src/lib/models/keyRotator.ts:49-54 | `computeKeyHash(a) === computeKeyHash(b)` exactly when the two strings name the same key multiset |
| KeyRotation.Remaining | src/lib/models/keyRotator.ts:113-116 | the remaining wait is 0 exactly when the key is usable now, and otherwise reaches its cooldown end |
| KeyRotation.WrapIsMod | src/lib/models/keyRotator.ts:72 | the cursor arithmetic equals the source's `%` |
| KeyRotation.FirstReadyOffset | src/lib/models/keyRotator.ts:71-80 | the scan result is an offset within the key list |
| KeyRotation.FirstReadyOffsetSpec | src/lib/models/keyRotator.ts:71-80 | the first loop stops at the first usable key in cyclic order from the cursor, and finds none only if every key cools |
| KeyRotation.ScanFindsIff | src/lib/models/keyRotator.ts:71-80 | the first loop finds a key exactly when some key is usable |
| KeyRotation.NoneReady | src/lib/models/keyRotator.ts:82 | a scan that finds nothing means no key is usable |
| KeyRotation.SoonestUpTo | src/lib/models/keyRotator.ts:83-92 | the fallback position is a valid index |
| KeyRotation.SoonestUpToSpec | src/lib/models/keyRotator.ts:83-92 | the fallback key has the earliest expiry; it is the cursor's key unless a key expires strictly earlier, and then it is the first such |
| KeyRotation.IndexOf | src/lib/models/keyRotator.ts:95 | `indexOf` gives the first position holding the key |
| KeyRotation.SlotCovers | src/lib/models/keyRotator.ts:71-73 | the cyclic scan from any cursor visits every key |
| KeyRotation.NextKey | src/lib/models/keyRotator.ts:66-97 | the new cursor is a valid index |
| KeyRotation.NextKeyWhenReady | src/lib/models/keyRotator.ts:71-80 | with a usable key, `getNextKey` hands out the first usable key after the cursor and moves the cursor just past it |
| KeyRotation.NextKeyWhenCooling | src/lib/models/keyRotator.ts:82-96 | with every key cooling, the key handed out expires soonest; ties go to the cursor's key, then the first listed; the cursor moves past its first occurrence |
| KeyRotation.NextKeyFound | src/lib/models/keyRotator.ts:72-78 | with the source's `%`: the key found at offset `i` and the cursor after it |
| KeyRotation.NextKeyFallback | src/lib/models/keyRotator.ts:94-96 | with the source's `%`: the fallback key and `(indexOf(bestKey) + 1) % length` |
| KeyRotation.Draws | src/lib/models/keyRotator.ts:66-97 | `m` successive calls hand out `m` keys |
| KeyRotation.NextKeyAtReadyCursor | src/lib/models/keyRotator.ts:71-78 | when the cursor's key is usable, it is handed out and the cursor advances by one |
| KeyRotation.DrawsInOrder | src/lib/models/keyRotator.ts:66-80 | with every key usable, successive calls from cursor `s` hand out `keys[s..]` in order |
| KeyRotation.FreshRotatorRoundRobin | src/lib/models/keyRotator.ts:1-7 | a fresh pool hands out each list entry once, in list order, over its first `totalKeys` calls |
| KeyRotation.CoolingKeySkipped | src/lib/models/keyRotator.ts:62-65 | a cooling key is never handed out while another key is usable |
| KeyRotation.KeyRotator.constructor | src/lib/models/keyRotator.ts:29-40 | the pool holds the parsed keys and their hash, with cursor 0 and no cooldowns |
| KeyRotation.KeyRotator.GetNextKey | src/lib/models/keyRotator.ts:66-97 | the key and new cursor are `NextKey` of the old state; the cooldowns are unchanged |
| KeyRotation.KeyRotator.ScanForReady | src/lib/models/keyRotator.ts:71-80 | the first loop's result is `FirstReadyOffset` |
| KeyRotation.KeyRotator.SoonestKey | src/lib/models/keyRotator.ts:83-92 | the second loop's key is the one at `SoonestUpTo` |
| KeyRotation.KeyRotator.MarkRateLimited | src/lib/models/keyRotator.ts:102-107 | the key's cooldown becomes `now + durationMs` (last write wins); nothing else changes |
| KeyRotation.KeyRotator.GetCooldownRemaining | src/lib/models/keyRotator.ts:113-116 | 0 exactly when the key is usable, 0 for an unknown key, else the time left until expiry |
| KeyRotation.KeyRotator.TotalKeys | src/lib/models/keyRotator.ts:121-123 | the number of list entries, at least one |
| KeyRotation.DistinctAtMostLength | src/lib/models/keyRotator.ts:121-123 | `totalKeys` counts entries, never fewer than the distinct keys |
| KeyRotation.RotatorRegistry.constructor | src/lib/models/keyRotator.ts:10 | the registry starts empty |
| KeyRotation.RotatorRegistry.GetInstance | src/lib/models/keyRotator.ts:46-60 | reuses the stored pool when its key multiset matches; otherwise throws on an empty key list, or stores and returns a fresh pool |
| Retry.LocalError | src/lib/models/providers/openai/openaiLLM.ts:392-396 | an error the adapter raises itself carries its message and never counts as a 429 |
| Retry.DigitPrefix | src/lib/models/providers/openai/openaiLLM.ts:77 | the digits `parseInt` reads are the longest run of digits at the start |
| Retry.NatToString | src/lib/models/providers/openai/openaiLLM.ts:75-77 | a delay-seconds value is written as a non-empty string of digits |
| Retry.NatToStringValue | src/lib/models/providers/openai/openaiLLM.ts:77 | reading back the decimal digits of `n` gives `n` |
| Retry.ParseIntDigits | src/lib/models/providers/openai/openaiLLM.ts:77 | `parseInt(s, 10)` reads the leading digits and ignores what follows ("1.5" gives 1) |
| Retry.ParseIntLetter | src/lib/models/providers/openai/openaiLLM.ts:77-78 | `parseInt` of a string that starts with a letter, such as an HTTP-date, is NaN |
| Retry.RetryAfterSeconds | src/lib/models/providers/openai/openaiLLM.ts:74-81 | a `retry-after` of `n` seconds gives a cooldown of `n * 1000` ms |
| Retry.RetryAfterDefault | src/lib/models/providers/openai/openaiLLM.ts:74-83 | a missing, empty or date-form header gives the 30 s default |
| Retry.Handle429 | src/lib/models/providers/openai/openaiLLM.ts:89-125 | the key cools for the retry-after time; a retry happens exactly when attempts remain, after peeking at the next key; a wait is asked for only for a cooling key, capped at 15 s; with no attempts left the cursor is untouched |
| Retry.TurnOf | src/lib/models/providers/openai/openaiLLM.ts:176-240 | one attempt goes round exactly when it threw a 429 and attempts remain, and waits at most 15 s |
| Retry.AfterTail | src/lib/models/providers/openai/openaiLLM.ts:176 | the state a record of attempts leaves is the state its tail leaves |
| Retry.FaithfulSnoc | src/lib/models/providers/openai/openaiLLM.ts:176-240 | a faithful record of attempts stays faithful when the next attempt runs from the state it left |
| Retry.FaithfulTurns | src/lib/models/providers/openai/openaiLLM.ts:225-236 | each recorded attempt retries exactly on a 429 with attempts left, waits at most 15 s and keeps the cursor in range |
| Retry.StopsOnlyWhenDone | src/lib/models/providers/openai/openaiLLM.ts:225-240 | the loop goes round only on a 429: every attempt but the last was rate limited, and the last was not or was attempt `totalKeys + 1` |
| Retry.EndsAtFirstOtherOutcome | src/lib/models/providers/openai/openaiLLM.ts:222-237 | an attempt that is not rate limited ends the loop |
| Retry.AllThrottledExhausts | src/lib/models/providers/openai/openaiLLM.ts:173-240 | when every attempt is rate limited the loop makes all `totalKeys + 1` attempts and gives up with a 429 |
| Retry.FinishedTail | src/lib/models/providers/openai/openaiLLM.ts:176 | after a round that went on, the rest of a finished record is finished |
| Retry.FaithfulUnique | src/lib/models/providers/openai/openaiLLM.ts:176-240 | the attempt loop is determined by the rotator's state and what the upstream calls do |
| Retry.UndrawnKeepsCooldown | src/lib/models/providers/openai/openaiLLM.ts:96-97 | a key the loop never drew keeps its cooldown entry, or its absence |
| Retry.TakeTurn | src/lib/models/providers/openai/openaiLLM.ts:177-236 | one pass of the loop body changes the rotator as `TurnOf` says and records every key drawn |
| Retry.ProgressSnoc | src/lib/models/providers/openai/openaiLLM.ts:176-240 | the loop's bookkeeping (values yielded, waits, keys drawn) carries over one more pass |
| Retry.Round | src/lib/models/providers/openai/openaiLLM.ts:176-240 | one round extends the faithful record by one attempt; a retry leaves attempts to make; a stop yields that attempt's ending |
| Retry.RunWithRetry | src/lib/models/providers/openai/openaiLLM.ts:173-241 | the loop makes at most `totalKeys + 1` attempts, follows the rotator faithfully, stops as `Finished` says, and returns the last attempt's value or error with everything earlier attempts yielded |
| OpenAiAdapter.BaseUrl | src/lib/models/providers/openai/openaiLLM.ts:37 | the base URL is the configured one unless it is unset or empty, and then the OpenAI default; never empty |
| OpenAiAdapter.Connect | src/lib/models/providers/openai/openaiLLM.ts:35-40 | the instance shares the registry's pool for its base URL, holding the configured key multiset; it fails exactly when no key is configured |
| OpenAiAdapter.ConvertToOpenAIMessages | src/lib/models/providers/openai/openaiLLM.ts:128-156 | message by message: tool results carry their call id and content; assistant turns keep their content and carry tool calls only when there are some; other messages go through unchanged |
| OpenAiAdapter.OpenAiTools | src/lib/models/providers/openai/openaiLLM.ts:159-170 | the `tools` parameter is absent exactly when no tools are given, and otherwise lists them in order |
| OpenAiAdapter.WireCallsRoundTrip | src/lib/models/providers/openai/openaiLLM.ts:142-151 | tool calls sent with stringified arguments decode back to the same calls when `JSON.parse` inverts `JSON.stringify` |
| OpenAiAdapter.FunctionCalls | src/lib/models/providers/openai/openaiLLM.ts:206-216 | the kept tool calls are exactly the function calls of the reply, in order |
| OpenAiAdapter.DecodeCalls | src/lib/models/providers/openai/openaiLLM.ts:212 | decoding fails exactly when some call's arguments are not JSON, and otherwise decodes every call in place |
| OpenAiAdapter.TextReplyCases | src/lib/models/providers/openai/openaiLLM.ts:202-223 | an SDK error passes unchanged; no choices gives "No response from OpenAI"; otherwise the first choice's content, function calls and finish reason |
| OpenAiAdapter.LocalRepliesNotThrottled | src/lib/models/providers/openai/openaiLLM.ts:223-226 | a reply the adapter rejects itself never triggers a retry |
| OpenAiAdapter.Absorb | src/lib/models/providers/openai/openaiLLM.ts:301-321 | a fragment lands in the entry at its index, or in a new entry at the end |
| OpenAiAdapter.AbsorbChunk | src/lib/models/providers/openai/openaiLLM.ts:297-322 | the `map` over one chunk's fragments updates the entries and yields the calls as the spec functions say |
| OpenAiAdapter.TakeFragment | src/lib/models/providers/openai/openaiLLM.ts:302-321 | one fragment: the new entries are `Absorb`, and the shown call is the entry parsed (`'{}'` for a new empty entry) |
| OpenAiAdapter.ShowAllStops | src/lib/models/providers/openai/openaiLLM.ts:301-322 | once a partial parse throws, the later fragments of the chunk are not looked at |
| OpenAiAdapter.ChunkStep | src/lib/models/providers/openai/openaiLLM.ts:296-328 | a chunk without choices changes nothing; otherwise it yields once with its content, its calls and `done` exactly when a finish reason is set |
| OpenAiAdapter.ChunkLoop | src/lib/models/providers/openai/openaiLLM.ts:295-328 | the `for await` loop yields exactly what the run over all chunks yields, and stops with the run's error at the first chunk whose partial arguments do not parse |
| OpenAiAdapter.StreamTextAttempt | src/lib/models/providers/openai/openaiLLM.ts:289-330 | an attempt fails with the loop's error, else with the stream's own failure, and otherwise succeeds, after yielding what the run yields |
| OpenAiAdapter.ChunkStepYields | src/lib/models/providers/openai/openaiLLM.ts:296-328 | a pass that does not fail keeps what was yielded and adds at most one chunk, carrying the chunk's content, with `done` exactly when a finish reason is set |
| OpenAiAdapter.TextStreamStops | src/lib/models/providers/openai/openaiLLM.ts:295-330 | after a failure the later chunks change nothing |
| OpenAiAdapter.AbsorbAllAppend | src/lib/models/providers/openai/openaiLLM.ts:289-322 | taking in two runs of fragments equals taking in the first, then the second |
| OpenAiAdapter.TextStreamYields | src/lib/models/providers/openai/openaiLLM.ts:295-328 | a run without failure yields once per chunk with choices; the joined content chunks are all the content received; `done` is set exactly with a finish reason |
| OpenAiAdapter.TextStreamEntries | src/lib/models/providers/openai/openaiLLM.ts:289-322 | the tool-call entries are those of all fragments of all chunks, taken in one after the other |
| OpenAiAdapter.InOrderArguments | src/lib/models/providers/openai/openaiLLM.ts:302-321 | with fragments numbered in order of first appearance, entry `i` holds the joined argument text of the fragments numbered `i` |
| OpenAiAdapter.InOrderPrefix | src/lib/models/providers/openai/openaiLLM.ts:302 | an in-order fragment list stays in order without its last fragment, which is numbered at most one past the entries |
| OpenAiAdapter.ArgumentsStep | src/lib/models/providers/openai/openaiLLM.ts:302-321 | one more in-order fragment keeps every entry's text equal to the text of its index |
| OpenAiAdapter.StreamedArguments | src/lib/models/providers/openai/openaiLLM.ts:289-330 | across a whole in-order stream, each entry holds the full argument text of its index |
| OpenAiAdapter.MisnumberedFragmentsSplit | src/lib/models/providers/openai/openaiLLM.ts:302-308 | a fragment whose index has no entry yet opens a new one at the end: two fragments both numbered 1 make two entries |
| OpenAiAdapter.ObjectReply | src/lib/models/providers/openai/openaiLLM.ts:380-395 | an SDK error passes unchanged; no choices is "No response"; success needs the first choice's content; any repair, parse or validation failure is a parse error |
| OpenAiAdapter.StreamObjectAttempt | src/lib/models/providers/openai/openaiLLM.ts:424-476 | the event loop yields and ends as the run over all events says |
| OpenAiAdapter.ObjectStreamStops | src/lib/models/providers/openai/openaiLLM.ts:468-474 | after a failed final parse the later events change nothing |
| OpenAiAdapter.ObjectStreamSound | src/lib/models/providers/openai/openaiLLM.ts:450-475 | a run without failure buffered every delta in order and yielded once per delta or done event with text |
| OpenAiAdapter.DeltaYield | src/lib/models/providers/openai/openaiLLM.ts:455-466 | the value yielded for a delta is the partial parse of all delta text so far, or `{}` |
| OpenAiAdapter.ScriptOf | src/lib/models/providers/openai/openaiLLM.ts:176-240 | the retry script has one step per attempt, each carrying that attempt's outcome |
| OpenAiAdapter.GenerateText | src/lib/models/providers/openai/openaiLLM.ts:158-241 | the request carries the converted messages, the tools and the resolved options; the retry loop runs as `RunWithRetry` says; the outcome is the last attempt's reply; the rotator ends with the last turn's cooldowns and cursor |
| OpenAiAdapter.StreamText | src/lib/models/providers/openai/openaiLLM.ts:243-348 | the same request as `generateText`; everything every attempt yielded, in order, and how the last attempt ended; the rotator ends with the last turn's cooldowns and cursor |
| OpenAiAdapter.GenerateObject | src/lib/models/providers/openai/openaiLLM.ts:350-414 | converted messages and no tools; the outcome is the last attempt's repaired, parsed and validated reply; the rotator ends with the last turn's cooldowns and cursor |
| OpenAiAdapter.StreamObject | src/lib/models/providers/openai/openaiLLM.ts:416-498 | the messages go out unconverted; everything every attempt yielded, in order, and how the last attempt ended; the rotator ends with the last turn's cooldowns and cursor |
| GmiCloudAdapter.WithJsonInstruction | src/lib/models/providers/gmicloud/gmicloudLLM.ts:20-26 | the messages sent are one system message with the JSON instruction and the schema text, then the caller's messages unchanged |
| GmiCloudAdapter.ObjectOptions | src/lib/models/providers/gmicloud/gmicloudLLM.ts:31-38 | the temperature is the caller's or 0; every other option is passed as the caller gave it |
| GmiCloudAdapter.ObjectSampling | src/lib/models/providers/gmicloud/gmicloudLLM.ts:31-38 | once the parent resolves the options, an object request samples at temperature 0 unless the caller sets one; the instance's temperature is never used |
| GmiCloudAdapter.Excerpt | src/lib/models/providers/gmicloud/gmicloudLLM.ts:48 | `slice(0, 500)` is a prefix of at most 500 characters, all of a shorter content |
| GmiCloudAdapter.ObjectFromText | src/lib/models/providers/gmicloud/gmicloudLLM.ts:41-50 | a failed text call passes its error; success needs content and is the repaired, parsed and validated value; any other failure is the GMI Cloud parse error |
| GmiCloudAdapter.GenerateObject | src/lib/models/providers/gmicloud/gmicloudLLM.ts:15-51 | the parent's `generateText` runs on the instructed messages and object options; the outcome is `ObjectFromText` of the last attempt's reply; the rotator ends with the last turn's cooldowns and cursor |
| GmiCloudAdapter.StripOpeningFence | src/lib/models/providers/gmicloud/gmicloudLLM.ts:85 | removing the opening fence keeps a suffix, and text without a fence is untouched |
| GmiCloudAdapter.StripClosingFence | src/lib/models/providers/gmicloud/gmicloudLLM.ts:86 | removing the closing fence keeps a prefix |
| GmiCloudAdapter.FencedReply | src/lib/models/providers/gmicloud/gmicloudLLM.ts:84-86 | a reply wrapped as a `json` code fence reaches partial-json as its bare body |
| GmiCloudAdapter.OpeningFenceRemoved | src/lib/models/providers/gmicloud/gmicloudLLM.ts:85 | the opening `json` fence and its line break are cut from a fenced reply |
| GmiCloudAdapter.OpeningTagSkipped | src/lib/models/providers/gmicloud/gmicloudLLM.ts:85 | the fence, the `json` tag, the line break and the white space after them are all cut |
| GmiCloudAdapter.ClosingTagCut | src/lib/models/providers/gmicloud/gmicloudLLM.ts:86 | a closing fence on its own line is cut together with its line break |
| GmiCloudAdapter.UnfencedUntouched | src/lib/models/providers/gmicloud/gmicloudLLM.ts:84-86 | text with no fence at either end reaches partial-json unchanged |
| GmiCloudAdapter.FenceStreamStops | src/lib/models/providers/gmicloud/gmicloudLLM.ts:101-105 | once the final parse throws, the later chunks change nothing |
| GmiCloudAdapter.FenceChunk | src/lib/models/providers/gmicloud/gmicloudLLM.ts:81-106 | one loop pass does what `FenceStep` says |
| GmiCloudAdapter.FenceStream | src/lib/models/providers/gmicloud/gmicloudLLM.ts:80-107 | the loop yields and fails as the run over the chunks says |
| GmiCloudAdapter.FenceStreamSound | src/lib/models/providers/gmicloud/gmicloudLLM.ts:80-107 | a run without failure has received all content in order and yielded once per chunk plus once per `done` chunk |
| GmiCloudAdapter.FenceStepGrows | src/lib/models/providers/gmicloud/gmicloudLLM.ts:81-106 | a step that does not throw appends the chunk's content and yields once, or twice on `done`; a failed loop stays as it is |
| GmiCloudAdapter.DoneYieldsValidated | src/lib/models/providers/gmicloud/gmicloudLLM.ts:94-100 | the value yielded at `done` is the validated parse of everything received so far, fences included |
| GmiCloudAdapter.StreamObject | src/lib/models/providers/gmicloud/gmicloudLLM.ts:53-108 | the parent's `streamText` runs on the instructed messages; the loop throws at a failed final parse, otherwise the parent's ending stands; the rotator ends with the last turn's cooldowns and cursor |
| GeminiAdapter.RawPartsOf | src/lib/models/providers/gemini/geminiLLM.ts:53-54 | the raw parts replayed are those of the first tool call, and only when there are some |
| GeminiAdapter.AssistantParts | src/lib/models/providers/gemini/geminiLLM.ts:57-70 | an assistant message without raw parts gives its text part (when non-empty), then one `functionCall` part per tool call |
| GeminiAdapter.PushCallParts | src/lib/models/providers/gemini/geminiLLM.ts:61-70 | the loop appends one `functionCall` part per tool call, in order |
| GeminiAdapter.ConvertMessages | src/lib/models/providers/gemini/geminiLLM.ts:35-91 | the loop's contents and instruction are those of the message-by-message conversion |
| GeminiAdapter.ConvertAppend | src/lib/models/providers/gemini/geminiLLM.ts:42-88 | converting a concatenation concatenates the contents; the later list's system instruction wins |
| GeminiAdapter.StepIndependent | src/lib/models/providers/gemini/geminiLLM.ts:42-88 | a message adds the same entries whatever came before it |
| GeminiAdapter.InstructionStep | src/lib/models/providers/gemini/geminiLLM.ts:43-44 | a system message sets the instruction; any other message keeps it |
| GeminiAdapter.InstructionIffSystem | src/lib/models/providers/gemini/geminiLLM.ts:39-44 | there is an instruction exactly when some message is a system message |
| GeminiAdapter.InstructionIsLast | src/lib/models/providers/gemini/geminiLLM.ts:42-44 | the instruction is the content of the last system message |
| GeminiAdapter.ContentRoles | src/lib/models/providers/gemini/geminiLLM.ts:42-88 | system messages never enter the contents: every entry is a user or model turn |
| GeminiAdapter.UserAndToolTurns | src/lib/models/providers/gemini/geminiLLM.ts:45-49 | a user message is one text part; a tool result is one `functionResponse` part under the user role, named by the tool, not its call id |
| GeminiAdapter.EmptyAssistantDropped | src/lib/models/providers/gemini/geminiLLM.ts:71-73 | an assistant message with neither text nor tool calls is dropped |
| GeminiAdapter.ConvertTools | src/lib/models/providers/gemini/geminiLLM.ts:96-106 | nothing for no tools; otherwise one entry that declares every tool in order |
| GeminiAdapter.SpreadInstruction | src/lib/models/providers/gemini/geminiLLM.ts:118 | an empty instruction is left out of the request |
| GeminiAdapter.BuildTextRequest | src/lib/models/providers/gemini/geminiLLM.ts:109-134 | the text request carries the converted contents, the instruction, the tools and the resolved options |
| GeminiAdapter.BuildObjectRequest | src/lib/models/providers/gemini/geminiLLM.ts:238-263 | the object request carries the converted contents, the instruction, the JSON mime type and schema, and the resolved options |
| GeminiAdapter.FinishReason | src/lib/models/providers/gemini/geminiLLM.ts:158 | an empty finish reason counts as absent |
| GeminiAdapter.ExtractCalls | src/lib/models/providers/gemini/geminiLLM.ts:136-146 | the loop's calls are the `functionCall` parts in order |
| GeminiAdapter.CallsOfAppend | src/lib/models/providers/gemini/geminiLLM.ts:138-146 | the calls of two runs of parts are those of each, in order |
| GeminiAdapter.CallsOfShape | src/lib/models/providers/gemini/geminiLLM.ts:138-146 | every call comes from a `functionCall` part, is named by it, carries no raw parts, and has an id from its name and the time |
| GeminiAdapter.AttachRaw | src/lib/models/providers/gemini/geminiLLM.ts:149-151 | the first call, if any, carries the raw parts; the others are unchanged |
| GeminiAdapter.GenerateText | src/lib/models/providers/gemini/geminiLLM.ts:108-161 | the request is the text request; an SDK error passes through; otherwise the reply's output |
| GeminiAdapter.GeneratedText | src/lib/models/providers/gemini/geminiLLM.ts:136-160 | the calls are the reply's `functionCall` parts, the first carrying every part; the text defaults to '' and the finish reason to 'stop' |
| GeminiAdapter.ReplayRoundTrip | src/lib/models/providers/gemini/geminiLLM.ts:51-55 | an assistant message built from a reply with tool calls converts back to exactly that reply's parts |
| GeminiAdapter.StreamChunk | src/lib/models/providers/gemini/geminiLLM.ts:197-233 | one loop pass does what `StreamStep` says |
| GeminiAdapter.TextStreamLoop | src/lib/models/providers/gemini/geminiLLM.ts:193-234 | the loop's yields and accumulated calls are those of the run over the chunks |
| GeminiAdapter.StreamText | src/lib/models/providers/gemini/geminiLLM.ts:163-235 | the request is the text request; the yields and accumulated calls are the run's over every chunk delivered, and the stream's own error, if it threw after them, is the ending |
| GeminiAdapter.StreamAccumulates | src/lib/models/providers/gemini/geminiLLM.ts:193-221 | the raw parts are every part seen so far, and the accumulated calls are their calls, the first carrying all parts |
| GeminiAdapter.StepYield | src/lib/models/providers/gemini/geminiLLM.ts:226-233 | each chunk adds exactly one yield, built from that chunk |
| GeminiAdapter.StreamYields | src/lib/models/providers/gemini/geminiLLM.ts:196-234 | one yield per chunk, with that chunk's text and only that chunk's calls; `done` exactly with a finish reason |
| GeminiAdapter.ObjectText | src/lib/models/providers/gemini/geminiLLM.ts:266 | a missing or empty text is read as `{}` |
| GeminiAdapter.ObjectOutputOf | src/lib/models/providers/gemini/geminiLLM.ts:265-277 | the output fails exactly when the repaired, parsed and validated text does, with the Gemini parse error |
| GeminiAdapter.GenerateObject | src/lib/models/providers/gemini/geminiLLM.ts:237-278 | the request is the object request; an SDK error passes through; otherwise `ObjectOutputOf` |
| GeminiAdapter.MissingTextIsEmptyObject | src/lib/models/providers/gemini/geminiLLM.ts:266 | a reply without text succeeds exactly when `{}` validates |
| GeminiAdapter.StreamObject | src/lib/models/providers/gemini/geminiLLM.ts:280-336 | the request is the object request; a stream that throws ends with its error after the partial parses of the chunks it delivered; otherwise the run over the chunks, final parse included |
| GeminiAdapter.ObjectStreamLoop | src/lib/models/providers/gemini/geminiLLM.ts:308-335 | a throwing stream leaves the partial parses and its error; otherwise the loop and final parse yield and fail as the run says |
| GeminiAdapter.ObjectStreamFinal | src/lib/models/providers/gemini/geminiLLM.ts:310-335 | one yield per chunk, then one validated value exactly when text arrived and validates; an error exactly when text arrived and does not |
| GeminiAdapter.PartialYieldsAt | src/lib/models/providers/gemini/geminiLLM.ts:310-319 | the k-th yield is the partial parse of the first-part text of the first k+1 chunks, or `{}` |
| ProviderTypes.WithoutKey | convex/providers.ts:176 | the kept models are exactly those whose key differs, never more than before |
| ProviderTypes.WithoutKeyAbsent | convex/providers.ts:176 | removing a key that no model has changes nothing |
| ProviderTypes.WithoutKeyIdempotent | convex/providers.ts:176 | removing a key twice is the same as removing it once |
| ProviderTypes.WithoutKeyOrder | convex/providers.ts:176 | filtering keeps the surviving models in their original relative order |
| ProviderTypes.FirstWhere | convex/providers.ts:15-18 | the first index satisfying the predicate: none before it qualifies, and none exists exactly when no element qualifies |
| ProviderTypes.FirstWhereFinds | convex/providers.ts:15-18 | the search finds an index exactly when some element qualifies |
| ProviderModels.DefaultModels | src/lib/models/providers/fireworks/index.ts:13-22 | each provider's built-in chat models and no embedding models; only Fireworks has two |
| ProviderModels.ModelListOf | src/lib/models/providers/gemini/index.ts:47-62 | the defaults alone when nothing is stored; otherwise the defaults followed by the stored models, with no de-duplication |
| ProviderModels.FireworksModelListAsWritten | src/lib/models/providers/fireworks/index.ts:49-60 | Fireworks's `getModelList` as written throws, whatever is stored, because the lookup is not awaited |
| ProviderModels.GetModelList | src/lib/models/providers/gmicloud/index.ts:47-62 | with the lookup awaited, the model list is `ModelListOf` |
| ProviderModels.LoadChat | src/lib/models/providers/gemini/index.ts:64-79 | a failed list passes its error; otherwise the model loads exactly when its key is listed, with the provider's key and base URL |
| ProviderModels.LoadChatModel | src/lib/models/providers/gmicloud/index.ts:64-79 | a chat model loads exactly when its key is among the defaults or the stored models |
| ProviderModels.LoadEmbeddingModel | src/lib/models/providers/gemini/index.ts:81-96 | Gemini loads an embedding model exactly when its key is listed, on the fixed base URL; GMI Cloud and Fireworks always throw |
| ProviderModels.DefaultChatModelsLoad | src/lib/models/providers/gemini/index.ts:32-79 | every default chat model loads, whatever is stored |
| ProviderModels.StoredChatModelsLoad | src/lib/models/providers/gemini/index.ts:55-79 | every stored chat model loads, with its own key |
| ProviderModels.FireworksAsWrittenNeverLoads | src/lib/models/providers/fireworks/index.ts:51-65 | Fireworks as written can load no chat model at all |
| ProviderModels.FireworksCorrectedLoadsDefault | src/lib/models/providers/fireworks/index.ts:13-17 | with the lookup awaited, Fireworks's first default model loads even with nothing stored |
| ProviderModels.ParseAndValidate | src/lib/models/providers/gemini/index.ts:98-107 | accepts exactly an object with a truthy `apiKey` and keeps its string form; a falsy or non-object value gives "Expected object"; anything else gives "API key must be provided" |
| ProviderModels.ParseStringKey | src/lib/models/providers/fireworks/index.ts:84-93 | a configuration with a non-empty string key validates to exactly that key, whatever else it holds |
| ProviderStore.IndexById | convex/providers.ts:89-92 | the first row stored under the id; none exactly when no row has it |
| ProviderStore.Patched | convex/providers.ts:98-107 | each supplied field replaces the stored one; id and type are kept |
| ProviderStore.PatchLaws | convex/providers.ts:98-107 | an empty patch changes nothing, and applying a patch twice equals applying it once |
| ProviderStore.WithModel | convex/providers.ts:144-152 | the model is appended to the chosen list; the other list and every other field are unchanged |
| ProviderStore.WithoutModel | convex/providers.ts:174-184 | every model with the key leaves the chosen list; the other list and every other field are unchanged |
| ProviderStore.RemoveUndoesAdd | convex/providers.ts:125-185 | removing a key right after adding a model under it equals only removing it; for a fresh key the row is restored |
| ProviderStore.WithoutKeyAppendDropped | convex/providers.ts:146-176 | a model appended and then filtered out by its key leaves the filtered list unchanged |
| ProviderStore.DeletedFirst | convex/providers.ts:111-123 | with no row under the id nothing changes; otherwise exactly one row goes |
| ProviderStore.DeleteRemovesProvider | convex/providers.ts:111-123 | with unique ids the deleted id is gone, and every other row stays |
| ProviderStore.LookupAfterWrites | convex/providers.ts:32-109 | a row inserted under a fresh id is what `getById` then finds; a patch keeps the row findable at the same place |
| ProviderStore.ProvidersTable.constructor | convex/providers.ts:4-10 | the table holds the given rows |
| ProviderStore.ProvidersTable.GetById | convex/providers.ts:12-20 | the first row under the id, or none exactly when no row has it |
| ProviderStore.ProvidersTable.GetByHash | convex/providers.ts:22-30 | the first row with the hash, or none exactly when no row has it |
| ProviderStore.ProvidersTable.Create | convex/providers.ts:32-63 | one row holding exactly the supplied fields is appended |
| ProviderStore.ProvidersTable.Update | convex/providers.ts:65-109 | "Provider not found" and no change when no row has the id; otherwise only the supplied fields of the first such row change, and the merged row is returned |
| ProviderStore.ProvidersTable.DeleteById | convex/providers.ts:111-123 | the first row under the id is removed; nothing happens when there is none |
| ProviderStore.ProvidersTable.AddModel | convex/providers.ts:125-156 | "Provider not found" and no change, or the model appended to the chosen list of that row and returned |
| ProviderStore.ProvidersTable.RemoveModel | convex/providers.ts:158-186 | "Provider not found" and no change, or every model with the key removed from the chosen list of that row |
| ChatStore.NewMessage | convex/messages.ts:37-45 | the inserted row copies message id, chat id, backend id, query and creation date; missing or `null` response blocks become `[]`, supplied ones are kept; a missing status becomes "answering", a supplied one is kept; the creation time is the store's |
| ChatStore.PatchedMessage | convex/messages.ts:67-73 | each supplied field among status, response blocks and backend id takes the patch's value, each absent one keeps the row's, and nothing else changes |
| ChatStore.MessageLifecycle | convex/messages.ts:26-75 | a message created without optional fields starts empty and "answering"; a status update then changes only the status |
| ChatStore.NewChat | convex/chats.ts:37-45 | the inserted chat keeps given sources and files, and gets `[]` for missing ones |
| ChatStore.Survivors | convex/messages.ts:88-92 | a deletion never adds messages |
| ChatStore.InChat | convex/messages.ts:7-10 | a chat's messages are exactly the table's messages of that chat |
| ChatStore.InChatOrder | convex/messages.ts:7-10 | two messages of the chat are listed in the order they were inserted |
| ChatStore.InChatKeepsOrder | convex/messages.ts:7-10 | every pair of the chat's messages is listed in insertion order |
| ChatStore.SurvivorsExact | convex/messages.ts:77-107 | a deletion keeps exactly the messages it does not target |
| ChatStore.DeleteAfterExact | convex/messages.ts:88-92 | `deleteAfter` keeps a message stamped exactly at the threshold and every other chat's messages; it removes exactly the chat's later ones |
| ChatStore.OtherChatsUntouched | convex/messages.ts:83-92 | a deletion over one chat leaves every other chat's messages exactly as they were |
| ChatStore.InChatAppend | convex/messages.ts:7-10 | a chat's messages in a concatenation are those of each part, in order |
| ChatStore.DeleteByChatIdEmpties | convex/messages.ts:96-107 | after `deleteByChatId` the chat has no messages left |
| ChatStore.InChatNone | convex/messages.ts:7-10 | a chat with no messages in the table lists none |
| ChatStore.Reversed | convex/chats.ts:7 | descending order lists the rows newest first, each exactly once |
| ChatStore.ChatDatabase.constructor | convex/chats.ts:4-10 | the database holds the given chats and messages |
| ChatStore.ChatDatabase.GetByChatId | convex/messages.ts:4-12 | the listed messages are exactly the table's messages of the chat, in insertion order |
| ChatStore.ChatDatabase.GetByIds | convex/messages.ts:14-24 | the message at the first position with that chat and id, or none exactly when there is no such message |
| ChatStore.ChatDatabase.CreateMessage | convex/messages.ts:26-47 | exactly `NewMessage` is appended; the chats are unchanged |
| ChatStore.ChatDatabase.UpdateMessage | convex/messages.ts:49-75 | a silent no-op when no message matches; otherwise only the first match is patched |
| ChatStore.ChatDatabase.DeleteMessages | convex/messages.ts:88-92 | the deletion loop removes exactly the targeted messages |
| ChatStore.ChatDatabase.DeleteAfter | convex/messages.ts:77-94 | the chat's messages stamped strictly after the threshold go, and nothing else |
| ChatStore.ChatDatabase.DeleteByChatId | convex/messages.ts:96-107 | all of the chat's messages go, and nothing else |
| ChatStore.ChatDatabase.ListChats | convex/chats.ts:4-10 | every chat, newest first |
| ChatStore.ChatDatabase.GetChatById | convex/chats.ts:12-20 | the chat at the first position with the id, or none exactly when there is none |
| ChatStore.ChatDatabase.CreateChat | convex/chats.ts:22-46 | exactly `NewChat` is appended; the messages are unchanged |
| ChatStore.ChatDatabase.DeleteChat | convex/chats.ts:48-69 | the chat goes if present, and all messages with its id go even when it is absent |
| Registry.Initialized | src/lib/models/registry.ts:22-43 | initialisation never yields more active providers than are configured; which ones and in what order is stated by `InitializedExact` and `InitializedOrder` |
| Registry.InitializedExact | src/lib/models/registry.ts:26-40 | the active list holds exactly the configured providers whose type is known and whose class accepts the configuration, each with its own provider object; the others are skipped without failing |
| Registry.InitializedOrder | src/lib/models/registry.ts:26-40 | admitted providers become active in configuration order |
| Registry.InitializedAllAdmitted | src/lib/models/registry.ts:26-42 | when every configured provider is admitted, the active list is the configured list, in order |
| Registry.InitializeActiveProviders | src/lib/models/registry.ts:22-43 | the `forEach` loop builds exactly the active list `Initialized` describes |
| Registry.Minimal | src/lib/models/registry.ts:55-80 | an entry carries the provider's id and name and its listed models, or on a listing failure one chat model keyed 'error' named by the message and no embedding model |
| Registry.Indices | src/lib/models/registry.ts:53-54 | the positions `0..n-1` of the active providers, in order |
| Registry.CompletionOrderCovers | src/lib/models/registry.ts:53-82 | an order in which the concurrent listings complete visits every provider once and only real ones |
| Registry.PickedPermutes | src/lib/models/registry.ts:53-82 | reading a list in a completion order yields the same elements, each as often |
| Registry.WithoutProvider | src/lib/models/registry.ts:157-159 | the filtered list keeps exactly the entries whose id differs; `WithoutProviderOrder` adds their order |
| Registry.WithoutProviderOrder | src/lib/models/registry.ts:157-159 | the entries kept by the filter stay in their relative order |
| Registry.WithoutProviderAbsent | src/lib/models/registry.ts:157-159 | removing an id no entry carries leaves the list unchanged |
| Registry.ReplacedAll | src/lib/models/registry.ts:199-206 | the `map` replaces every entry with the id by the new one, in place, and keeps the length |
| Registry.UpsertedExact | src/lib/models/registry.ts:198-213 | after the update the new entry is present, every entry under the id is the new one, other entries keep their places, and one entry is appended exactly when none had the id |
| Registry.AddedModel | src/lib/models/registry.ts:237-251 | adding a model keeps the length and every entry with another id |
| Registry.RemovedModel | src/lib/models/registry.ts:269-285 | removing a model keeps the length and every entry with another id |
| Registry.ModelEditsOnMatch | src/lib/models/registry.ts:237-251 | on a matching entry exactly the model is appended to the chosen list, the other list, the hash and the provider object stay, and removing the key afterwards equals only removing it |
| Registry.RemoveModelOnMatch | src/lib/models/registry.ts:269-285 | on a matching entry the chosen list keeps exactly its models with another key, and the other list is unchanged |
| Registry.ModelRegistry.constructor | src/lib/models/registry.ts:18-20 | the registry starts with the initialised active list |
| Registry.ModelRegistry.GetActiveProviders | src/lib/models/registry.ts:49-85 | whatever the completion order, the entries are those of the active providers, each exactly as often as it occurs (multiset equality with `MinimalAll`) |
| Registry.ModelRegistry.LoadModel | src/lib/models/registry.ts:87-107 | 'Invalid provider id' when no active provider has the id, otherwise the first such provider's own loader's answer |
| Registry.ModelRegistry.AddProvider | src/lib/models/registry.ts:109-151 | an unknown type fails before anything is stored; otherwise one row with empty model lists and the configuration's hash is stored, and the active entry is appended unless the class rejects the configuration |
| Registry.ModelRegistry.RemoveProvider | src/lib/models/registry.ts:153-162 | the row is deleted and every active entry with the id is dropped; the others keep their order (`WithoutProviderOrder`) |
| Registry.ModelRegistry.UpdateProvider | src/lib/models/registry.ts:164-216 | a missing row fails with nothing changed; otherwise the row's name, config and hash are patched, and then an unknown type fails or the active list is upserted |
| Registry.ModelRegistry.ReplaceOrAppend | src/lib/models/registry.ts:198-213 | the `replaced`-flag loop yields exactly `Upserted` |
| Registry.ModelRegistry.AddProviderModel | src/lib/models/registry.ts:219-254 | a missing row fails with nothing changed; otherwise the row and every active entry with the id gain the model in the chosen list |
| Registry.ModelRegistry.RemoveProviderModel | src/lib/models/registry.ts:256-288 | a missing row fails with nothing changed; otherwise the row and every active entry with the id lose the models with the key from the chosen list |
| ServerRegistry.MapToConfigProvider | src/lib/config/serverRegistry.ts:24-34 | the store's `providerId` becomes the provider's `id`, and the other six fields are copied |
| ServerRegistry.RecordOf | src/lib/config/serverRegistry.ts:24-34 | the store row a configured provider stands for keeps its id as `providerId` |
| ServerRegistry.MapToConfigProviderInverse | src/lib/config/serverRegistry.ts:24-34 | the mapping loses nothing: it and `RecordOf` are inverse to each other in both directions |
| ServerRegistry.ConfigProvidersOf | src/lib/config/serverRegistry.ts:82 | every stored row is mapped, in order |
| ServerRegistry.ImportRecord | src/lib/config/serverRegistry.ts:58-66 | an imported row copies id, name and type; a missing or `null` configuration becomes `{}`, the model lists default to `[]`; a non-empty hash is kept, otherwise the stored configuration is hashed |
| ServerRegistry.Imported | src/lib/config/serverRegistry.ts:54-73 | the import appends at most one row per legacy provider |
| ServerRegistry.ImportedExact | src/lib/config/serverRegistry.ts:54-73 | every imported row comes from a complete legacy provider the store accepted, and each such provider is imported |
| ServerRegistry.IncompleteSkipped | src/lib/config/serverRegistry.ts:55 | providers missing an id, a name or a type contribute no rows |
| ServerRegistry.LegacySync.constructor | src/lib/config/serverRegistry.ts:22 | the process starts unsynced |
| ServerRegistry.LegacySync.Sync | src/lib/config/serverRegistry.ts:36-76 | once synced, or with a non-empty store, nothing is imported; otherwise the legacy list (`[]` when missing) is imported; the flag ends set either way |
| ServerRegistry.LegacySync.ImportAll | src/lib/config/serverRegistry.ts:54-73 | the loop appends exactly `Imported`: incomplete providers are skipped and a failing insert loses only its own row |
| ServerRegistry.LegacySync.GetConfiguredModelProviders | src/lib/config/serverRegistry.ts:78-83 | the import runs first, then every stored row is returned, mapped and in order |
| ServerRegistry.LegacySync.GetConfiguredModelProviderById | src/lib/config/serverRegistry.ts:85-94 | the import runs first; the answer is `undefined` exactly when no row has the id, and otherwise that row, mapped, carrying the id |
| ProvidersRoute.Listed | src/app/api/providers/route.ts:13-23 | GET lists at most as many providers as are stored; which ones is `ListedExact`, their order `ListedOrder` |
| ProvidersRoute.ListedExact | src/app/api/providers/route.ts:13-23 | every listed entry is the view of a stored provider without an 'error' chat model, and every such provider is listed |
| ProvidersRoute.ListedOrder | src/app/api/providers/route.ts:13-23 | listed providers appear in store order |
| ProvidersRoute.ListedHasNoErrorModel | src/app/api/providers/route.ts:14-17 | no listed provider offers a chat model keyed 'error' |
| ProvidersRoute.ListedAllHealthy | src/app/api/providers/route.ts:13-23 | without error sentinels every stored provider is listed, in store order, under `id` |
| ProvidersRoute.Get | src/app/api/providers/route.ts:8-44 | status 200 exactly when the query succeeds, with the filtered list; otherwise 500 with 'An error has occurred.' |
| ProvidersRoute.NewRecord | src/app/api/providers/route.ts:62-73 | the stored row has the fresh id, the body's name, type and config, no models and the configuration's hash |
| ProvidersRoute.PostOutcome | src/app/api/providers/route.ts:46-102 | 200 exactly when a row is stored, which is exactly when the body has truthy string type and name and a truthy config; 400 exactly when a parsed non-null body misses one of the three; every other failure answers 500 |
| ProvidersRoute.EchoMatchesRow | src/app/api/providers/route.ts:75-90 | the echoed provider is the stored row under its public names |
| ProvidersRoute.PostedIsFound | src/app/api/providers/route.ts:62-73 | after a successful POST with an unused id, looking the id up finds the new row |
| ProvidersRoute.Post | src/app/api/providers/route.ts:46-102 | answers `PostOutcome` and stores its row exactly when there is one; otherwise the store is unchanged |
| ChatsRoute.ViewOf | src/app/api/chats/route.ts:11-17 | `chatId` becomes `id`, title and creation time are copied, present sources and files are copied and missing ones become `[]` |
| ChatsRoute.Views | src/app/api/chats/route.ts:10-17 | every chat is projected, in order |
| ChatsRoute.IdsOfExact | src/app/api/chats/route.ts:9 | the id set holds exactly the ids of the views |
| ChatsRoute.Deduped | src/app/api/chats/route.ts:18-22 | the filter never adds views; what it keeps and in what order is stated by the lemmas below |
| ChatsRoute.DedupedKeepsEveryId | src/app/api/chats/route.ts:18-22 | no chat id disappears from the list |
| ChatsRoute.DedupedUnique | src/app/api/chats/route.ts:18-22 | no two listed chats share an id |
| ChatsRoute.FirstOfIdPrefix | src/app/api/chats/route.ts:18-22 | the first view of an id in a prefix is its first view in the whole list |
| ChatsRoute.DedupedKeepsOnlyFirsts | src/app/api/chats/route.ts:18-22 | each kept view is the first view of its id |
| ChatsRoute.LastIsFirstOfId | src/app/api/chats/route.ts:19-21 | the `seen` test on the last view succeeds exactly when it is the first of its id |
| ChatsRoute.DedupedKeepsEveryFirst | src/app/api/chats/route.ts:18-22 | each first view of an id is kept |
| ChatsRoute.DedupedOrder | src/app/api/chats/route.ts:18-22 | the kept views stay in the order the store listed them |
| ChatsRoute.DedupedDistinct | src/app/api/chats/route.ts:18-22 | a list without repeated ids passes through unchanged |
| ChatsRoute.Dedupe | src/app/api/chats/route.ts:9-22 | the loop with its `seen` set keeps exactly `Deduped` |
| ChatsRoute.Get | src/app/api/chats/route.ts:4-32 | a failing query answers 500 with the fixed message; otherwise 200 with the projected, deduplicated chats |
| Migrate.TightTrim | src/lib/db/migrate.ts:26 | trimming a string that starts and ends with a kept character changes nothing |
| Migrate.ParseTrimmedSpec | src/lib/db/migrate.ts:27-31 | a line assigns exactly when it is not blank, is no comment and holds an `=`; the key is the trimmed text before the first `=` and the value the trimmed text after it |
| Migrate.EnvKeyHasNoEquals | src/lib/db/migrate.ts:28-30 | a parsed key never holds an `=`; later ones stay in the value |
| Migrate.ParseEnvLineRoundTrip | src/lib/db/migrate.ts:25-31 | `KEY=VALUE` with a tight key free of `=` that is no comment parses back to that assignment |
| Migrate.ParseTrimmedRoundTrip | src/lib/db/migrate.ts:27-31 | the same round trip for a line that is already trimmed |
| Migrate.Assign | src/lib/db/migrate.ts:32-34 | an unset or empty variable takes the value, a set one keeps its own, and no other variable changes |
| Migrate.ParsedLines | src/lib/db/migrate.ts:25 | one parse result per line |
| Migrate.ParsedLinesAt | src/lib/db/migrate.ts:25-31 | entry `i` is what line `i` assigns |
| Migrate.LoadedEnv | src/lib/db/migrate.ts:25-37 | loading never removes a variable |
| Migrate.LoadedEnvKeepsSetValues | src/lib/db/migrate.ts:32 | a variable with a non-empty value keeps it, whatever the file says |
| Migrate.LoadedEnvKeys | src/lib/db/migrate.ts:25-37 | after loading, the variables are the ones before plus the keys some line assigns |
| Migrate.LoadedEnvFillsUnset | src/lib/db/migrate.ts:32-34 | a line assigning an unset or empty variable gives it the line's value |
| Migrate.ProcessEnv.constructor | src/lib/db/migrate.ts:41 | the environment starts as given |
| Migrate.ProcessEnv.LoadEnvFile | src/lib/db/migrate.ts:22-39 | the loop over the file's lines leaves exactly `LoadedEnv` |
| Migrate.Unwrapped | src/lib/db/migrate.ts:86-94 | unwrapping ends on a value that is no string, and leaves a non-string value as it is |
| Migrate.EmptyStringIsEmptyArray | src/lib/db/migrate.ts:88 | an empty string unwraps to `[]` |
| Migrate.UnwrapStringified | src/lib/db/migrate.ts:86-94 | however many times a non-string value was serialised, unwrapping recovers it |
| Migrate.Unwrap | src/lib/db/migrate.ts:87-89 | the `while` loop computes `Unwrapped`, and stops because each parse shortens the string |
| Migrate.OrElse | src/lib/db/migrate.ts:101-102 | JavaScript's `or` on values: a truthy value stays, a falsy one becomes the fallback |
| Migrate.ChatPayloadOf | src/lib/db/migrate.ts:85-103 | a chat is sent exactly when both columns unwrap; it copies id, title and creation time, and its sources and files are the unwrapped values or `[]` when those are falsy |
| Migrate.MessagePayloadOf | src/lib/db/migrate.ts:123-138 | a message is sent exactly when its blocks unwrap; it copies message id, chat id, backend id, query and creation date; its blocks are the unwrapped value or `[]` when falsy; its status defaults to 'completed' |
| Migrate.MissingColumnsDefault | src/lib/db/migrate.ts:86-102 | NULL and `''` columns are sent as `[]` |
| Migrate.RunTable | src/lib/db/migrate.ts:78-111 | a table inserts at most one record per row |
| Migrate.RunTableSound | src/lib/db/migrate.ts:85-108 | only accepted records of actual rows are inserted |
| Migrate.RunTableIsolatesRejections | src/lib/db/migrate.ts:96-107 | with no parse error the table is not abandoned, and every accepted record is inserted; a rejected insert costs only its own row |
| Migrate.RunTableAbortStops | src/lib/db/migrate.ts:78-111 | a parse error at row `i` abandons the table: only the records before it were inserted |
| Migrate.ConvexTarget.constructor | src/lib/db/migrate.ts:73 | the target starts with no chats and no messages |
| Migrate.MigrateChats | src/lib/db/migrate.ts:78-111 | the chats loop appends exactly the table run's inserts and leaves the messages alone |
| Migrate.MigrateMessages | src/lib/db/migrate.ts:114-149 | the messages loop appends exactly the table run's inserts and leaves the chats alone |
| Migrate.Migrate | src/lib/db/migrate.ts:20-153 | the environment file is loaded first; the script stops exactly when the URL is unset, when there is no database or when there is no driver, copying nothing then; otherwise each table's inserts are appended, and an unreadable table adds nothing |
| Tavily.RequestOf | src/lib/tavily.ts:32-39 | the request uses depth 'basic', topic 'general', ten results and no images unless the options say otherwise, and passes the domain lists through |
| Tavily.EmptyOptionsAreDefaults | src/lib/tavily.ts:32-39 | options with every field missing give the same request as no options |
| Tavily.TextItems | src/lib/tavily.ts:41-45 | one item per text result |
| Tavily.ImageItems | src/lib/tavily.ts:48-57 | one item per image |
| Tavily.ImageItemsAt | src/lib/tavily.ts:49-56 | item `j` is built from image `j` |
| Tavily.MergedLayout | src/lib/tavily.ts:41-57 | the results are the text results in order with their title, url and content, followed by one item per image, titled and described by its description or `''`, with the image's url as both `url` and `img_src` |
| Tavily.AppendImages | src/lib/tavily.ts:49-56 | the `forEach` pushes exactly the image items after the text items |
| Tavily.SearchTavily | src/lib/tavily.ts:24-62 | a failing search propagates; otherwise the merged results and no suggestions |
| Video.MarkerMatch | src/lib/agents/media/video.ts:55 | a marker matches at a position exactly when it occurs there followed by eleven id characters, which are the id |
| Video.MatchAt | src/lib/agents/media/video.ts:55 | whatever alternative matches at a position yields a well-formed id |
| Video.FirstMatchFrom | src/lib/agents/media/video.ts:55 | a scan from a position yields only well-formed ids |
| Video.ExtractVideoId | src/lib/agents/media/video.ts:55-56 | an extracted id is eleven letters, digits, `_` or `-` |
| Video.FirstMatchFromLeftmost | src/lib/agents/media/video.ts:55 | the scan answers the first position where an alternative matches |
| Video.FirstMatchFromNone | src/lib/agents/media/video.ts:55-56 | the scan finds nothing exactly when no position matches |
| Video.LeftmostDecides | src/lib/agents/media/video.ts:55-56 | the leftmost match decides the id |
| Video.NoMatchNoId | src/lib/agents/media/video.ts:55-56 | no id exactly when no position of the URL matches |
| Video.NoMatchOnOtherChar | src/lib/agents/media/video.ts:55 | no match starts at a character other than `v`, `/` or `y` |
| Video.ExtractAfterMarker | src/lib/agents/media/video.ts:55-56 | a URL whose lead-in has no `v`, `/` or `y`, followed by a marker and an id, yields that id |
| Video.VideoOf | src/lib/agents/media/video.ts:53-64 | a result becomes a card exactly when its url and title are non-empty and an id is found |
| Video.CardLinks | src/lib/agents/media/video.ts:59-64 | a card keeps the url and title, and its thumbnail and embed links carry the id, which can be read back from the embed link |
| Video.Videos | src/lib/agents/media/video.ts:52-67 | at most one card per result |
| Video.VideosAppend | src/lib/agents/media/video.ts:52-67 | the cards of a concatenation are the cards of each part, in order |
| Video.VideosExact | src/lib/agents/media/video.ts:52-67 | every card comes from a result, and every result that makes a card contributes it |
| Video.CollectVideos | src/lib/agents/media/video.ts:50-67 | the `forEach` loop collects exactly `Videos` |
| Video.FirstVideos | src/lib/agents/media/video.ts:69 | at most ten cards, a prefix of the list, and the whole list when it is ten or fewer |
| Video.YoutubeRequest | src/lib/agents/media/video.ts:46-48 | the search asks Tavily for default depth, topic and count, restricted to youtube.com |
| Video.VideoSearchSound | src/lib/agents/media/video.ts:46-69 | at most ten cards, the start of all the search's cards, and all of them when there are ten or fewer |
| Video.SearchVideos | src/lib/agents/media/video.ts:23-70 | a failed rewrite or search propagates; otherwise the first ten cards of the merged results |

## Left out

- The provider SDKs (OpenAI, Google GenAI, Tavily) are oracles. What they answer at each attempt is a parameter of the call that uses them.
- The JSON libraries are total functions given as parameters:
  - `partial-json`'s `parse`;
  - `@toolsycc/json-repair`;
  - `JSON.parse` and `JSON.stringify`;
  - the zod schemas' `parse`.

  Migrate relies on two facts about `JSON.parse`: `'[]'` parses to the empty array, and a string result is shorter than its source. These are a precondition, not proved about a real parser.
- `hashObj` (a content hash) and `crypto.randomUUID()` are parameters. Uniqueness of drawn ids is assumed only where a lemma says so (`ProvidersRoute.PostedIsFound`).
- `Date.now()` is the parameter `now`. Time does not advance while a method runs.
- `sleep` is not performed. `Retry.Handle429` returns the delay it would wait.
- Concurrency is not modelled:
  - `getActiveProviders` runs its listings concurrently. The model takes the completion order as a parameter and proves the outcome for every order.
  - Interleavings of two requests sharing one rotator are not modelled. Each operation is atomic.
- The Convex runtime is not modelled, including its argument validators. The tables are sequences of records in insertion order. A validator's verdict on an insert is a predicate parameter (`accepts`).
- JSON numbers are integers. Floating-point values, `NaN` and `Infinity` are not represented.
  - Sampling options such as temperature carry their values unchanged, and no arithmetic is done on them.
  - `parseInt` is modelled on decimal digit strings.
- Migrate: reading `.env.local`, `DATA_DIR` and the database path are not modelled. The file's content, whether the database exists and whether `better-sqlite3` loads are parameters. The SQLite rows of each table are a parameter, and an unreadable table is a `Failure`.
- Console logging and `process.exit` are not modelled. A stop of the migration script is an outcome value.
- Video: the LLM's rewriting of the query, the few-shot prompt and `formatChatHistoryAsString` are not modelled. The rewritten query is an input, and a failure to produce one is a `Failure`.
- Tavily: `getTavilyApiKey` and the client's construction are not modelled. The search call is the parameter `search`.
- Gemini's embedding model class, and the embedding calls of every provider, are not part of this model. Only the existence checks before loading are modelled.
- Provider classes are not modelled. A `ProviderCatalog` says which types exist and whether a class rejects a configuration. A provider object is its type, id, name and configuration.
- OpenAiAdapter.ParseResponseError: the source appends the thrown library error (`: ${err}`) to the prefix. The JSON libraries here fail with `None` and carry no message, so the text stops at the prefix.
- GmiCloudAdapter.ParseError: carries the prefix and the 500-character excerpt of the raw content, but not the library error the source puts between them, for the same reason.
- GmiCloudAdapter.FinalParseError: the prefix only; the library error the source appends is not carried.
- GeminiAdapter.ObjectParseError: the prefix only; the library error the source appends is not carried.
- GeminiAdapter.FinalParseError: the prefix only; the library error the source appends is not carried.
- OpenAiAdapter.ArgumentsNotJson: the source makes no error of its own here. `JSON.parse` throws and its error propagates; the model stands for that library error with this fixed text.
- OpenAiAdapter.PartialArgumentsError: the source makes no error of its own here either. `partial-json`'s `parse` throws and its error propagates; the model uses this fixed text for it.
- `z.toJSONSchema` is not modelled. The JSON schema sent with an object request is a parameter (`jsonSchema`), given next to the zod schema's `parse`; nothing ties the two together.
- GmiCloudAdapter.StreamObject: the parent's `streamText` is run to its end before the fence loop reads its chunks. The yields and the ending are the same as the source's. The interleaving is not: in the source the parent's retries happen lazily, while the consumer reads.
- Text.Sort: `LexLe` compares strings by Unicode scalar values. JavaScript's default `sort()` compares UTF-16 code units. The two orders differ only for strings holding characters outside the Basic Multilingual Plane.
- GmiCloudAdapter.FencedReply: proved only for a non-empty body that starts with a non-space character, which every JSON text is. The empty body is not covered.

## Findings

| source | as written | input that shows it | evidently intended | confidence | as-written member | corrected member |
|---|---|---|---|---|---|---|
| src/lib/models/providers/fireworks/index.ts:51 | `getConfiguredModelProviderById(this.id)!` is not awaited, so `configProvider` is a promise and spreading its `embeddingModels` throws a TypeError | any Fireworks provider, stored or not, on `getModelList` or `loadChatModel('accounts/fireworks/models/minimax-m2p5')` | await the lookup, then list the defaults followed by the stored models, as the Gemini and GMI Cloud classes do | high (not executed) | ProviderModels.FireworksAsWrittenNeverLoads | ProviderModels.FireworksCorrectedLoadsDefault |
