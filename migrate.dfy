/**
 * The one-shot SQLite to Convex migration script: it loads `.env.local` into
 * the process environment without overwriting values already set, stops when
 * the Convex URL is unset, the SQLite file is missing or the SQLite driver is
 * not installed, and otherwise copies the chats and then the messages table.
 * String columns are JSON-parsed until they are no longer strings, missing
 * values get their defaults, a rejected insert skips only its own row, and a
 * parse error abandons the rest of its table.
 */
module Migrate {
  import opened Wrappers
  import opened Json
  import opened Text

  // ---------------------------------------------------------------------------
  // `.env.local` lines.

  datatype Assignment = Assignment(key: string, value: string)

  /** `s` begins and ends with a character `trim` keeps. */
  predicate Tight(s: string) {
    s == [] || (!IsSpace(s[0]) && !IsSpace(s[|s| - 1]))
  }

  lemma TightTrim(s: string)
    requires Tight(s)
    ensures Trim(s) == s
  {
    TrimStartStep(s);
    TrimEndStep(s);
  }

  /** A trimmed line that assigns something: not blank, not a comment, and holding an `=`. */
  predicate Assigns(t: string) {
    t != [] && t[0] != '#' && '=' in t
  }

  /** A trimmed line: blank lines, comments and lines without `=` assign nothing; otherwise it
      splits at its first `=` with both sides trimmed. */
  function ParseTrimmed(t: string): Option<Assignment> {
    if t == [] || StartsWith(t, "#") then None
    else
      var i := IndexOfChar(t, '=');
      if i == |t| then None
      else Some(Assignment(Trim(t[..i]), Trim(t[i + 1..])))
  }

  /** One line of `.env.local`: `line.trim()`, then the split. */
  function ParseEnvLine(line: string): Option<Assignment> {
    ParseTrimmed(Trim(line))
  }

  /** A trimmed line assigns exactly when it is no blank line, no comment and holds an `=`; the
      key is the trimmed text before the first `=` and the value the trimmed text after it. */
  lemma ParseTrimmedSpec(t: string)
    ensures ParseTrimmed(t).Some? <==> Assigns(t)
    ensures ParseTrimmed(t).Some? ==> ParseTrimmed(t).value.key == Trim(t[..IndexOfChar(t, '=')])
    ensures ParseTrimmed(t).Some? ==> ParseTrimmed(t).value.value == Trim(t[IndexOfChar(t, '=') + 1..])
  {
  }

  /** The key never holds an `=`; later `=` signs stay in the value. */
  lemma EnvKeyHasNoEquals(t: string)
    requires ParseTrimmed(t).Some?
    ensures '=' !in ParseTrimmed(t).value.key
  {
    var i := IndexOfChar(t, '=');
    ParseTrimmedSpec(t);
    TrimmedChars(t[..i]);
  }

  /** `KEY=VALUE` with a tight key free of `=` that is no comment parses back to that assignment. */
  lemma ParseEnvLineRoundTrip(key: string, value: string)
    requires Tight(key) && Tight(value) && '=' !in key
    requires key == [] || key[0] != '#'
    ensures ParseEnvLine(key + "=" + value) == Some(Assignment(key, value))
  {
    var line := key + "=" + value;
    assert Tight(line);
    TightTrim(line);
    ParseTrimmedRoundTrip(key, value);
  }

  lemma ParseTrimmedRoundTrip(key: string, value: string)
    requires Tight(key) && Tight(value) && '=' !in key
    requires key == [] || key[0] != '#'
    ensures ParseTrimmed(key + "=" + value) == Some(Assignment(key, value))
  {
    var line := key + "=" + value;
    var n := |key|;
    assert line[n] == '=';
    assert line[..n] == key;
    assert line[n + 1..] == value;
    IndexOfCharAt(line, '=', n);
    TightTrim(key);
    TightTrim(value);
  }

  /** `if (!process.env[key]) process.env[key] = value`: an unset or empty variable takes the value. */
  function Assign(env: map<string, string>, a: Assignment): (r: map<string, string>)
    ensures r.Keys == env.Keys + {a.key}
    ensures a.key in env && env[a.key] != "" ==> r[a.key] == env[a.key]
    ensures !(a.key in env && env[a.key] != "") ==> r[a.key] == a.value
    ensures forall k :: k in env && k != a.key ==> r[k] == env[k]
  {
    if a.key in env && env[a.key] != "" then env else env[a.key := a.value]
  }

  /** What each line of the file assigns, in order. */
  function ParsedLines(lines: seq<string>): (r: seq<Option<Assignment>>)
    ensures |r| == |lines|
  {
    if lines == [] then [] else ParsedLines(lines[..|lines| - 1]) + [ParseEnvLine(lines[|lines| - 1])]
  }

  /** Entry `i` is what line `i` assigns. */
  lemma {:induction false} ParsedLinesAt(lines: seq<string>, i: nat)
    requires i < |lines|
    ensures ParsedLines(lines)[i] == ParseEnvLine(lines[i])
  {
    var n := |lines| - 1;
    if i < n {
      ParsedLinesAt(lines[..n], i);
    }
  }

  /** The environment after the parsed lines, one after the other. */
  function LoadedEnv(env: map<string, string>, parsed: seq<Option<Assignment>>): (r: map<string, string>)
    ensures env.Keys <= r.Keys
  {
    if parsed == [] then env
    else
      var prev := LoadedEnv(env, parsed[..|parsed| - 1]);
      match parsed[|parsed| - 1]
      case None => prev
      case Some(a) => Assign(prev, a)
  }

  /** A variable that already has a non-empty value keeps it, whatever the file says. */
  lemma {:induction false} LoadedEnvKeepsSetValues(env: map<string, string>, parsed: seq<Option<Assignment>>, k: string)
    requires k in env && env[k] != ""
    ensures LoadedEnv(env, parsed)[k] == env[k]
  {
    if parsed != [] {
      LoadedEnvKeepsSetValues(env, parsed[..|parsed| - 1], k);
    }
  }

  /** The variables after loading are the ones before and the keys some line assigns. */
  lemma {:induction false} LoadedEnvKeys(env: map<string, string>, parsed: seq<Option<Assignment>>, k: string)
    ensures k in LoadedEnv(env, parsed) <==>
      k in env || exists i :: 0 <= i < |parsed| && parsed[i].Some? && parsed[i].value.key == k
  {
    if parsed != [] {
      var n := |parsed| - 1;
      LoadedEnvKeys(env, parsed[..n], k);
      assert forall i :: 0 <= i < n ==> parsed[..n][i] == parsed[i];
    }
  }

  /** A variable a line assigns while it is unset or empty takes that line's value; an empty
      value is overwritten like a missing one. */
  lemma LoadedEnvFillsUnset(env: map<string, string>, parsed: seq<Option<Assignment>>, a: Assignment)
    requires a.key !in LoadedEnv(env, parsed) || LoadedEnv(env, parsed)[a.key] == ""
    ensures LoadedEnv(env, parsed + [Some(a)])[a.key] == a.value
  {
    assert (parsed + [Some(a)])[..|parsed|] == parsed;
  }

  /** `process.env`. */
  class ProcessEnv {
    var vars: map<string, string>

    constructor(initial: map<string, string>)
      ensures vars == initial
    {
      vars := initial;
    }

    /** The loading loop over the file's lines; each line's trim-and-split is `ParsedLines`. */
    method LoadEnvFile(content: string)
      modifies this
      ensures vars == LoadedEnv(old(vars), ParsedLines(Split(content, '\n')))
    {
      var parsed := ParsedLines(Split(content, '\n'));
      var i := 0;
      while i < |parsed|
        invariant 0 <= i <= |parsed|
        invariant vars == LoadedEnv(old(vars), parsed[..i])
      {
        assert parsed[..i + 1][..i] == parsed[..i];
        var line := parsed[i];
        if line.Some? {
          var a := line.value;
          if !(a.key in vars && vars[a.key] != "") {
            vars := vars[a.key := a.value];
          }
        }
        i := i + 1;
      }
      assert parsed[..i] == parsed;
    }

    /** `!process.env[key]` is false. */
    predicate IsSet(key: string)
      reads this
    {
      key in vars && vars[key] != ""
    }
  }

  // ---------------------------------------------------------------------------
  // Unwrapping string columns.

  /** What the script relies on from `JSON.parse`: `'[]'` is the empty array, and a string it
      yields is shorter than the text it was parsed from (the quotes go). */
  ghost predicate JsonParseLaws(parse: string -> Option<JsonValue>) {
    parse("[]") == Some(EmptyArray)
    && forall s :: parse(s).Some? && parse(s).value.JString? ==> |parse(s).value.s| < |s|
  }

  /** `while (typeof v === 'string') v = JSON.parse(v || '[]')`; `None` when a parse throws. */
  function Unwrapped(parse: string -> Option<JsonValue>, v: JsonValue): (r: Option<JsonValue>)
    requires JsonParseLaws(parse)
    ensures r.Some? ==> !r.value.JString?
    ensures !v.JString? ==> r == Some(v)
    decreases if v.JString? then |v.s| + 1 else 0
  {
    if !v.JString? then Some(v)
    else
      var text := if v.s == "" then "[]" else v.s;
      match parse(text)
      case None => None
      case Some(w) => Unwrapped(parse, w)
  }

  /** The empty string stands for the empty array. */
  lemma EmptyStringIsEmptyArray(parse: string -> Option<JsonValue>)
    requires JsonParseLaws(parse)
    ensures Unwrapped(parse, JString("")) == Some(EmptyArray)
  {
  }

  /** `v` serialised `n` times over. */
  function Stringified(stringify: JsonValue -> string, v: JsonValue, n: nat): JsonValue {
    if n == 0 then v else JString(stringify(Stringified(stringify, v, n - 1)))
  }

  /** However many times a non-string value was serialised, unwrapping recovers it, provided
      parsing inverts serialising and serialised text is never empty. */
  lemma {:induction false} UnwrapStringified(parse: string -> Option<JsonValue>, stringify: JsonValue -> string,
                                             v: JsonValue, n: nat)
    requires JsonParseLaws(parse)
    requires forall x :: parse(stringify(x)) == Some(x) && stringify(x) != ""
    requires !v.JString?
    ensures Unwrapped(parse, Stringified(stringify, v, n)) == Some(v)
  {
    if n > 0 {
      UnwrapStringified(parse, stringify, v, n - 1);
      var inner := Stringified(stringify, v, n - 1);
      assert parse(stringify(inner)) == Some(inner);
    }
  }

  /** The unwrapping loop. */
  method Unwrap(parse: string -> Option<JsonValue>, v: JsonValue) returns (r: Option<JsonValue>)
    requires JsonParseLaws(parse)
    ensures r == Unwrapped(parse, v)
  {
    var cur := v;
    while cur.JString?
      invariant Unwrapped(parse, cur) == Unwrapped(parse, v)
      decreases if cur.JString? then |cur.s| + 1 else 0
    {
      var parsed := parse(if cur.s == "" then "[]" else cur.s);
      if parsed.None? {
        return None;
      }
      cur := parsed.value;
    }
    r := Some(cur);
  }

  // ---------------------------------------------------------------------------
  // Rows and the records sent to Convex.

  /** A `chats` row; TEXT columns are `JString`s and NULL is `JNull`. */
  datatype SqliteChat = SqliteChat(id: JsonValue, title: JsonValue, createdAt: JsonValue,
                                   sources: JsonValue, files: JsonValue)

  datatype SqliteMessage = SqliteMessage(messageId: JsonValue, chatId: JsonValue, backendId: JsonValue,
                                         query: JsonValue, createdAt: JsonValue, responseBlocks: JsonValue,
                                         status: JsonValue)

  datatype ChatPayload = ChatPayload(chatId: JsonValue, title: JsonValue, createdAt: JsonValue,
                                     sources: JsonValue, files: JsonValue)

  datatype MessagePayload = MessagePayload(messageId: JsonValue, chatId: JsonValue, backendId: JsonValue,
                                           query: JsonValue, createdAt: JsonValue, responseBlocks: JsonValue,
                                           status: JsonValue)

  const Completed := JString("completed")

  /** `v || fallback`. */
  function OrElse(v: JsonValue, fallback: JsonValue): (r: JsonValue)
    ensures Truthy(v) ==> r == v
    ensures !Truthy(v) ==> r == fallback
  {
    if Truthy(v) then v else fallback
  }

  /** The chat sent for a row, or `None` when unwrapping a column throws. */
  function ChatPayloadOf(parse: string -> Option<JsonValue>, row: SqliteChat): (r: Option<ChatPayload>)
    requires JsonParseLaws(parse)
    ensures r.Some? <==> Unwrapped(parse, row.sources).Some? && Unwrapped(parse, row.files).Some?
    ensures r.Some? ==> r.value.chatId == row.id && r.value.title == row.title && r.value.createdAt == row.createdAt
    ensures r.Some? ==> r.value.sources == OrElse(Unwrapped(parse, row.sources).value, EmptyArray)
    ensures r.Some? ==> r.value.files == OrElse(Unwrapped(parse, row.files).value, EmptyArray)
    ensures r.Some? ==> Truthy(r.value.sources) && Truthy(r.value.files)
    ensures r.Some? ==> !r.value.sources.JString? && !r.value.files.JString?
  {
    match (Unwrapped(parse, row.sources), Unwrapped(parse, row.files))
    case (Some(sources), Some(files)) =>
      Some(ChatPayload(row.id, row.title, row.createdAt, OrElse(sources, EmptyArray), OrElse(files, EmptyArray)))
    case _ => None
  }

  /** The message sent for a row, or `None` when unwrapping its blocks throws. */
  function MessagePayloadOf(parse: string -> Option<JsonValue>, row: SqliteMessage): (r: Option<MessagePayload>)
    requires JsonParseLaws(parse)
    ensures r.Some? <==> Unwrapped(parse, row.responseBlocks).Some?
    ensures r.Some? ==> r.value.messageId == row.messageId && r.value.chatId == row.chatId
    ensures r.Some? ==> r.value.backendId == row.backendId && r.value.query == row.query
    ensures r.Some? ==> r.value.createdAt == row.createdAt
    ensures r.Some? ==> r.value.responseBlocks == OrElse(Unwrapped(parse, row.responseBlocks).value, EmptyArray)
    ensures r.Some? ==> Truthy(r.value.responseBlocks) && !r.value.responseBlocks.JString?
    ensures r.Some? ==> r.value.status == (if Truthy(row.status) then row.status else Completed)
  {
    match Unwrapped(parse, row.responseBlocks)
    case Some(blocks) =>
      Some(MessagePayload(row.messageId, row.chatId, row.backendId, row.query, row.createdAt,
                          OrElse(blocks, EmptyArray), OrElse(row.status, Completed)))
    case None => None
  }

  /** A NULL column becomes `[]`, and a column holding `''` too. */
  lemma MissingColumnsDefault(parse: string -> Option<JsonValue>, row: SqliteChat)
    requires JsonParseLaws(parse)
    requires row.sources in {JNull, JString("")} && row.files in {JNull, JString("")}
    ensures ChatPayloadOf(parse, row).Some?
    ensures ChatPayloadOf(parse, row).value.sources == EmptyArray
    ensures ChatPayloadOf(parse, row).value.files == EmptyArray
  {
    EmptyStringIsEmptyArray(parse);
  }

  // ---------------------------------------------------------------------------
  // Copying one table.

  /** What copying a table did: the records Convex accepted, in row order, and whether a
      parse error abandoned the rest of the table. */
  datatype TableRun<P> = TableRun(inserted: seq<P>, aborted: bool)

  /** The per-table loop over `payload` (a throwing unwrap) and `accepts` (the insert). */
  function RunTable<R, P>(rows: seq<R>, payload: R -> Option<P>, accepts: P -> bool): (r: TableRun<P>)
    ensures |r.inserted| <= |rows|
  {
    if rows == [] then TableRun([], false)
    else
      var prev := RunTable(rows[..|rows| - 1], payload, accepts);
      if prev.aborted then prev
      else
        match payload(rows[|rows| - 1])
        case None => TableRun(prev.inserted, true)
        case Some(p) => TableRun(prev.inserted + (if accepts(p) then [p] else []), false)
  }

  /** Only accepted records of actual rows are inserted. */
  lemma {:induction false} RunTableSound<R, P>(rows: seq<R>, payload: R -> Option<P>, accepts: P -> bool)
    ensures forall p :: p in RunTable(rows, payload, accepts).inserted ==>
      exists i :: 0 <= i < |rows| && payload(rows[i]) == Some(p) && accepts(p)
  {
    if rows != [] {
      var n := |rows| - 1;
      RunTableSound(rows[..n], payload, accepts);
      assert forall i :: 0 <= i < n ==> rows[..n][i] == rows[i];
    }
  }

  /** With no parse error, every accepted record is inserted: a rejected insert costs only its
      own row. */
  lemma {:induction false} RunTableIsolatesRejections<R, P>(rows: seq<R>, payload: R -> Option<P>, accepts: P -> bool)
    requires forall i :: 0 <= i < |rows| ==> payload(rows[i]).Some?
    ensures !RunTable(rows, payload, accepts).aborted
    ensures forall i :: 0 <= i < |rows| && accepts(payload(rows[i]).value) ==>
      payload(rows[i]).value in RunTable(rows, payload, accepts).inserted
  {
    if rows != [] {
      var n := |rows| - 1;
      assert forall i :: 0 <= i < n ==> rows[..n][i] == rows[i];
      RunTableIsolatesRejections(rows[..n], payload, accepts);
    }
  }

  /** A parse error at row `i` abandons the table: nothing after it is inserted. */
  lemma {:induction false} RunTableAbortStops<R, P>(rows: seq<R>, payload: R -> Option<P>, accepts: P -> bool, i: nat)
    requires i < |rows| && payload(rows[i]).None?
    ensures RunTable(rows, payload, accepts).aborted
    ensures RunTable(rows, payload, accepts).inserted == RunTable(rows[..i], payload, accepts).inserted
  {
    var n := |rows| - 1;
    if n == i {
    } else {
      assert rows[..n][..i] == rows[..i];
      RunTableAbortStops(rows[..n], payload, accepts, i);
    }
  }

  /** The Convex deployment's two tables, as the script fills them. */
  class ConvexTarget {
    var chats: seq<ChatPayload>
    var messages: seq<MessagePayload>

    constructor()
      ensures chats == [] && messages == []
    {
      chats := [];
      messages := [];
    }
  }

  function ChatPayloads(parse: string -> Option<JsonValue>): (f: SqliteChat -> Option<ChatPayload>)
    requires JsonParseLaws(parse)
  {
    row => ChatPayloadOf(parse, row)
  }

  function MessagePayloads(parse: string -> Option<JsonValue>): (f: SqliteMessage -> Option<MessagePayload>)
    requires JsonParseLaws(parse)
  {
    row => MessagePayloadOf(parse, row)
  }

  /** The chats loop: unwrap, insert (a rejection is logged), stop on a parse error. */
  method MigrateChats(target: ConvexTarget, rows: seq<SqliteChat>, parse: string -> Option<JsonValue>,
                      accepts: ChatPayload -> bool)
    requires JsonParseLaws(parse)
    modifies target
    ensures target.chats == old(target.chats) + RunTable(rows, ChatPayloads(parse), accepts).inserted
    ensures target.messages == old(target.messages)
  {
    var i := 0;
    while i < |rows|
      invariant 0 <= i <= |rows|
      invariant !RunTable(rows[..i], ChatPayloads(parse), accepts).aborted
      invariant target.chats == old(target.chats) + RunTable(rows[..i], ChatPayloads(parse), accepts).inserted
      invariant target.messages == old(target.messages)
    {
      var row := rows[i];
      assert rows[..i + 1][..i] == rows[..i];
      var sources := Unwrap(parse, row.sources);
      if sources.None? {
        RunTableAbortStops(rows, ChatPayloads(parse), accepts, i);
        return;
      }
      var files := Unwrap(parse, row.files);
      if files.None? {
        RunTableAbortStops(rows, ChatPayloads(parse), accepts, i);
        return;
      }
      var payload := ChatPayload(row.id, row.title, row.createdAt, OrElse(sources.value, EmptyArray),
                                 OrElse(files.value, EmptyArray));
      assert ChatPayloads(parse)(row) == Some(payload);
      if accepts(payload) {
        target.chats := target.chats + [payload];
      }
      i := i + 1;
    }
    assert rows[..i] == rows;
  }

  /** The messages loop, in the same way. */
  method MigrateMessages(target: ConvexTarget, rows: seq<SqliteMessage>, parse: string -> Option<JsonValue>,
                         accepts: MessagePayload -> bool)
    requires JsonParseLaws(parse)
    modifies target
    ensures target.messages == old(target.messages) + RunTable(rows, MessagePayloads(parse), accepts).inserted
    ensures target.chats == old(target.chats)
  {
    var i := 0;
    while i < |rows|
      invariant 0 <= i <= |rows|
      invariant !RunTable(rows[..i], MessagePayloads(parse), accepts).aborted
      invariant target.messages == old(target.messages) + RunTable(rows[..i], MessagePayloads(parse), accepts).inserted
      invariant target.chats == old(target.chats)
    {
      var row := rows[i];
      assert rows[..i + 1][..i] == rows[..i];
      var blocks := Unwrap(parse, row.responseBlocks);
      if blocks.None? {
        RunTableAbortStops(rows, MessagePayloads(parse), accepts, i);
        return;
      }
      var payload := MessagePayload(row.messageId, row.chatId, row.backendId, row.query, row.createdAt,
                                    OrElse(blocks.value, EmptyArray), OrElse(row.status, Completed));
      assert MessagePayloads(parse)(row) == Some(payload);
      if accepts(payload) {
        target.messages := target.messages + [payload];
      }
      i := i + 1;
    }
    assert rows[..i] == rows;
  }

  // ---------------------------------------------------------------------------
  // The script.

  const ConvexUrlKey := "NEXT_PUBLIC_CONVEX_URL"

  datatype Outcome = MissingConvexUrl | NoDatabase | NoDriver | Migrated

  /** What a table contributes: nothing when reading it throws, else its run's inserts. */
  function TableInserts<R, P>(rows: Result<seq<R>, string>, payload: R -> Option<P>, accepts: P -> bool): seq<P> {
    match rows
    case Failure(_) => []
    case Success(rs) => RunTable(rs, payload, accepts).inserted
  }

  /** `migrate()`. `envFile` is the content of `.env.local` when it exists; the reads of the two
      tables may throw. The URL check exits the process; the file and driver checks return. */
  method Migrate(env: ProcessEnv, envFile: Option<string>, databaseExists: bool, driverInstalled: bool,
                 chatRows: Result<seq<SqliteChat>, string>, messageRows: Result<seq<SqliteMessage>, string>,
                 parse: string -> Option<JsonValue>, acceptsChat: ChatPayload -> bool,
                 acceptsMessage: MessagePayload -> bool, target: ConvexTarget)
    returns (outcome: Outcome)
    requires JsonParseLaws(parse)
    modifies env, target
    ensures envFile.Some? ==> env.vars == LoadedEnv(old(env.vars), ParsedLines(Split(envFile.value, '\n')))
    ensures envFile.None? ==> env.vars == old(env.vars)
    ensures outcome == MissingConvexUrl <==> !env.IsSet(ConvexUrlKey)
    ensures outcome == NoDatabase <==> env.IsSet(ConvexUrlKey) && !databaseExists
    ensures outcome == NoDriver <==> env.IsSet(ConvexUrlKey) && databaseExists && !driverInstalled
    ensures outcome != Migrated ==> target.chats == old(target.chats) && target.messages == old(target.messages)
    ensures outcome == Migrated ==>
      target.chats == old(target.chats) + TableInserts(chatRows, ChatPayloads(parse), acceptsChat)
      && target.messages == old(target.messages) + TableInserts(messageRows, MessagePayloads(parse), acceptsMessage)
  {
    if envFile.Some? {
      env.LoadEnvFile(envFile.value);
    }
    if !env.IsSet(ConvexUrlKey) {
      return MissingConvexUrl;
    }
    if !databaseExists {
      return NoDatabase;
    }
    if !driverInstalled {
      return NoDriver;
    }
    if chatRows.Success? {
      MigrateChats(target, chatRows.value, parse, acceptsChat);
    }
    if messageRows.Success? {
      MigrateMessages(target, messageRows.value, parse, acceptsMessage);
    }
    outcome := Migrated;
  }
}
