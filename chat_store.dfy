/**
 * The `chats` and `messages` tables of the document store and their queries and
 * mutations. Both tables are sequences of rows in insertion order; a message row
 * carries the `_creationTime` the store stamps on it when it is inserted.
 */
module ChatStore {
  import opened Wrappers
  import opened Json
  import opened ProviderTypes

  datatype FileRef = FileRef(name: string, fileId: string)

  /** A row of `chats`. `sources` and `files` are optional in the schema; `create` always sets them. */
  datatype ChatRecord = ChatRecord(chatId: string, title: string, createdAt: string,
                                   sources: Option<seq<string>>, files: Option<seq<FileRef>>)

  /** A row of `messages`; `responseBlocks` and `status` are optional in the schema. */
  datatype MessageRecord = MessageRecord(
    messageId: string,
    chatId: string,
    backendId: string,
    query: string,
    createdAt: string,
    responseBlocks: Option<JsonValue>,
    status: Option<string>,
    creationTime: int)

  /** The arguments of `messages.create`. */
  datatype MessageArgs = MessageArgs(messageId: string, chatId: string, backendId: string, query: string,
                                     createdAt: string, responseBlocks: Option<JsonValue>,
                                     status: Option<string>)

  /** The optional arguments of `messages.update`. */
  datatype MessagePatch = MessagePatch(status: Option<string>, responseBlocks: Option<JsonValue>,
                                       backendId: Option<string>)

  /** The arguments of `chats.create`. */
  datatype ChatArgs = ChatArgs(chatId: string, title: string, createdAt: string,
                               sources: Option<seq<string>>, files: Option<seq<FileRef>>)

  const Answering := "answering"

  // ---------------------------------------------------------------------------
  // Row construction and patching.

  /** The row `messages.create` inserts: the identifying fields are copied, missing or `null`
      response blocks become `[]` and a missing status 'answering'. */
  function NewMessage(args: MessageArgs, creationTime: int): (m: MessageRecord)
    ensures m.messageId == args.messageId && m.chatId == args.chatId && m.backendId == args.backendId
    ensures m.query == args.query && m.createdAt == args.createdAt
    ensures args.responseBlocks.None? || args.responseBlocks.value.JNull? ==> m.responseBlocks == Some(EmptyArray)
    ensures args.responseBlocks.Some? && !args.responseBlocks.value.JNull? ==> m.responseBlocks == args.responseBlocks
    ensures args.status.None? ==> m.status == Some(Answering)
    ensures args.status.Some? ==> m.status == args.status
    ensures m.creationTime == creationTime
  {
    MessageRecord(args.messageId, args.chatId, args.backendId, args.query, args.createdAt,
                  Some(Coalesced(args.responseBlocks, EmptyArray)), Some(args.status.GetOr(Answering)),
                  creationTime)
  }

  /** `messages.update`'s patch: only the supplied fields among status, response blocks and
      backend id change. */
  function PatchedMessage(m: MessageRecord, patch: MessagePatch): (r: MessageRecord)
    ensures r.(status := m.status, responseBlocks := m.responseBlocks, backendId := m.backendId) == m
    ensures patch.status.None? ==> r.status == m.status
    ensures patch.responseBlocks.None? ==> r.responseBlocks == m.responseBlocks
    ensures patch.backendId.None? ==> r.backendId == m.backendId
    ensures patch.status.Some? ==> r.status == patch.status
    ensures patch.responseBlocks.Some? ==> r.responseBlocks == patch.responseBlocks
    ensures patch.backendId.Some? ==> r.backendId == patch.backendId.value
  {
    m.(status := if patch.status.Some? then patch.status else m.status,
       responseBlocks := if patch.responseBlocks.Some? then patch.responseBlocks else m.responseBlocks,
       backendId := patch.backendId.GetOr(m.backendId))
  }

  /** A message created without optional fields starts empty and 'answering'; a status update
      then changes only the status. */
  lemma MessageLifecycle(args: MessageArgs, t: int, status: string)
    requires args.responseBlocks.None? && args.status.None?
    ensures NewMessage(args, t).responseBlocks == Some(JArray([]))
    ensures NewMessage(args, t).status == Some("answering")
    ensures PatchedMessage(NewMessage(args, t), MessagePatch(Some(status), None, None))
      == NewMessage(args.(status := Some(status)), t)
  {
  }

  /** The row `chats.create` inserts: absent sources and files become `[]`. */
  function NewChat(args: ChatArgs): (c: ChatRecord)
    ensures c.sources.Some? && c.files.Some?
    ensures args.sources.None? ==> c.sources == Some([])
    ensures args.files.None? ==> c.files == Some([])
    ensures args.sources.Some? ==> c.sources == args.sources
    ensures args.files.Some? ==> c.files == args.files
  {
    ChatRecord(args.chatId, args.title, args.createdAt, Some(args.sources.GetOr([])), Some(args.files.GetOr([])))
  }

  // ---------------------------------------------------------------------------
  // Which messages a deletion removes.

  /** Whether a deletion over `chatId` removes `m`: `deleteByChatId` removes all the chat's
      messages (`after` absent), `deleteAfter` those stamped strictly after the threshold. */
  predicate Doomed(m: MessageRecord, chatId: string, after: Option<int>) {
    m.chatId == chatId && (after.None? || m.creationTime > after.value)
  }

  /** The messages a deletion keeps, in order. */
  function Survivors(ms: seq<MessageRecord>, chatId: string, after: Option<int>): (r: seq<MessageRecord>)
    ensures |r| <= |ms|
  {
    if ms == [] then []
    else
      var last := ms[|ms| - 1];
      Survivors(ms[..|ms| - 1], chatId, after) + (if Doomed(last, chatId, after) then [] else [last])
  }

  /** `getByChatId`: a chat's messages, in order. */
  function InChat(ms: seq<MessageRecord>, chatId: string): (r: seq<MessageRecord>)
    ensures forall m :: m in r ==> m in ms && m.chatId == chatId
    ensures forall m :: m in ms && m.chatId == chatId ==> m in r
  {
    if ms == [] then []
    else
      var last := ms[|ms| - 1];
      assert ms == ms[..|ms| - 1] + [last];
      InChat(ms[..|ms| - 1], chatId) + (if last.chatId == chatId then [last] else [])
  }

  /** `getByChatId` returns the chat's messages in the order they were inserted. */
  lemma {:induction false} InChatOrder(ms: seq<MessageRecord>, chatId: string, i: nat, j: nat)
    requires i < j < |ms| && ms[i].chatId == chatId && ms[j].chatId == chatId
    ensures Precedes(InChat(ms, chatId), ms[i], ms[j])
  {
    var n := |ms| - 1;
    var p := ms[..n];
    var tail := if ms[n].chatId == chatId then [ms[n]] else [];
    assert InChat(ms, chatId) == InChat(p, chatId) + tail;
    if j == n {
      assert p[i] == ms[i];
      PrecedesLast(InChat(p, chatId), ms[i], ms[j]);
    } else {
      assert p[i] == ms[i] && p[j] == ms[j];
      InChatOrder(p, chatId, i, j);
      PrecedesAppend(InChat(p, chatId), tail, ms[i], ms[j]);
    }
  }

  lemma InChatKeepsOrder(ms: seq<MessageRecord>, chatId: string)
    ensures forall i, j :: 0 <= i < j < |ms| && ms[i].chatId == chatId && ms[j].chatId == chatId ==>
      Precedes(InChat(ms, chatId), ms[i], ms[j])
  {
    forall i, j | 0 <= i < j < |ms| && ms[i].chatId == chatId && ms[j].chatId == chatId
      ensures Precedes(InChat(ms, chatId), ms[i], ms[j])
    {
      InChatOrder(ms, chatId, i, j);
    }
  }

  /** A deletion keeps exactly the messages it does not doom. */
  lemma {:induction false} SurvivorsExact(ms: seq<MessageRecord>, chatId: string, after: Option<int>)
    ensures forall m :: m in Survivors(ms, chatId, after) <==> m in ms && !Doomed(m, chatId, after)
  {
    if ms != [] {
      var p := ms[..|ms| - 1];
      SurvivorsExact(p, chatId, after);
      assert ms == p + [ms[|ms| - 1]];
    }
  }

  /** `deleteAfter` keeps a message stamped exactly at the threshold, and every message of any
      other chat; it removes exactly the chat's later messages. */
  lemma DeleteAfterExact(ms: seq<MessageRecord>, chatId: string, threshold: int, m: MessageRecord)
    requires m in ms
    ensures m in Survivors(ms, chatId, Some(threshold)) <==> m.chatId != chatId || m.creationTime <= threshold
  {
    SurvivorsExact(ms, chatId, Some(threshold));
  }

  /** A deletion over one chat leaves every other chat's messages exactly as they were. */
  lemma {:induction false} OtherChatsUntouched(ms: seq<MessageRecord>, chatId: string, after: Option<int>, other: string)
    requires other != chatId
    ensures InChat(Survivors(ms, chatId, after), other) == InChat(ms, other)
  {
    if ms != [] {
      var p := ms[..|ms| - 1];
      var last := ms[|ms| - 1];
      OtherChatsUntouched(p, chatId, after, other);
      var sp := Survivors(p, chatId, after);
      var tail := if Doomed(last, chatId, after) then [] else [last];
      InChatAppend(sp, tail, other);
      assert Survivors(ms, chatId, after) == sp + tail;
    }
  }

  lemma {:induction false} InChatAppend(a: seq<MessageRecord>, b: seq<MessageRecord>, chatId: string)
    requires |b| <= 1
    ensures InChat(a + b, chatId) == InChat(a, chatId) + InChat(b, chatId)
  {
    if b != [] {
      assert (a + b)[..|a + b| - 1] == a;
      assert InChat(b, chatId) == InChat([], chatId) + (if b[0].chatId == chatId then [b[0]] else []);
    } else {
      assert a + b == a;
    }
  }

  /** After `deleteByChatId` the chat has no messages left. */
  lemma DeleteByChatIdEmpties(ms: seq<MessageRecord>, chatId: string)
    ensures InChat(Survivors(ms, chatId, None), chatId) == []
  {
    SurvivorsExact(ms, chatId, None);
    InChatNone(Survivors(ms, chatId, None), chatId);
  }

  lemma {:induction false} InChatNone(ms: seq<MessageRecord>, chatId: string)
    requires forall m :: m in ms ==> m.chatId != chatId
    ensures InChat(ms, chatId) == []
  {
    if ms != [] {
      assert ms[|ms| - 1] in ms;
      assert forall m :: m in ms[..|ms| - 1] ==> m in ms;
      InChatNone(ms[..|ms| - 1], chatId);
    }
  }

  /** The position of the first message with this (chat, message) pair. */
  function MessageIndex(ms: seq<MessageRecord>, chatId: string, messageId: string): Option<nat> {
    FirstWhere(ms, (m: MessageRecord) => m.chatId == chatId && m.messageId == messageId)
  }

  /** The position of the first chat with this id. */
  function ChatIndex(cs: seq<ChatRecord>, chatId: string): Option<nat> {
    FirstWhere(cs, (c: ChatRecord) => c.chatId == chatId)
  }

  /** `s` in reverse. */
  function Reversed<T>(s: seq<T>): (r: seq<T>)
    ensures |r| == |s|
    ensures forall i :: 0 <= i < |s| ==> r[i] == s[|s| - 1 - i]
  {
    if s == [] then [] else [s[|s| - 1]] + Reversed(s[..|s| - 1])
  }

  class ChatDatabase {
    var chats: seq<ChatRecord>
    var messages: seq<MessageRecord>

    constructor(chats0: seq<ChatRecord>, messages0: seq<MessageRecord>)
      ensures chats == chats0 && messages == messages0
    {
      chats := chats0;
      messages := messages0;
    }

    // -------------------------------------------------------------------------
    // messages

    /** `messages.getByChatId`. */
    function GetByChatId(chatId: string): (r: seq<MessageRecord>)
      reads this
      ensures forall m :: m in r ==> m in messages && m.chatId == chatId
      ensures forall m :: m in messages && m.chatId == chatId ==> m in r
      ensures forall i, j :: 0 <= i < j < |messages| && messages[i].chatId == chatId && messages[j].chatId == chatId ==>
        Precedes(r, messages[i], messages[j])
    {
      InChatKeepsOrder(messages, chatId);
      InChat(messages, chatId)
    }

    /** `messages.getByIds`: the first message of that chat with that id, or nothing. */
    function GetByIds(chatId: string, messageId: string): (r: Option<MessageRecord>)
      reads this
      ensures r.None? <==> forall j :: 0 <= j < |messages| ==>
        !(messages[j].chatId == chatId && messages[j].messageId == messageId)
      ensures r.Some? ==> r.value in messages && r.value.chatId == chatId && r.value.messageId == messageId
      ensures r.Some? ==> exists i :: 0 <= i < |messages| && messages[i] == r.value &&
                                       forall j :: 0 <= j < i ==> !(messages[j].chatId == chatId && messages[j].messageId == messageId)
    {
      match MessageIndex(messages, chatId, messageId)
      case None => None
      case Some(i) => Some(messages[i])
    }

    /** `messages.create`, stamped with the store's clock reading `creationTime`. */
    method CreateMessage(args: MessageArgs, creationTime: int)
      modifies this
      ensures messages == old(messages) + [NewMessage(args, creationTime)]
      ensures chats == old(chats)
    {
      messages := messages + [NewMessage(args, creationTime)];
    }

    /** `messages.update`: a silent no-op when no message matches the pair; otherwise the first
        match is patched. */
    method UpdateMessage(chatId: string, messageId: string, patch: MessagePatch)
      modifies this
      ensures chats == old(chats)
      ensures MessageIndex(old(messages), chatId, messageId).None? ==> messages == old(messages)
      ensures MessageIndex(old(messages), chatId, messageId).Some? ==>
        var i := MessageIndex(old(messages), chatId, messageId).value;
        messages == old(messages)[i := PatchedMessage(old(messages)[i], patch)]
    {
      match MessageIndex(messages, chatId, messageId)
      case None =>
      case Some(i) =>
        messages := messages[i := PatchedMessage(messages[i], patch)];
    }

    /** The loop of `deleteAfter`, `deleteByChatId` and the cascade of `chats.deleteById`:
        every doomed message is deleted. */
    method DeleteMessages(chatId: string, after: Option<int>)
      modifies this
      ensures messages == Survivors(old(messages), chatId, after)
      ensures chats == old(chats)
    {
      var ms := messages;
      var kept: seq<MessageRecord> := [];
      var i := 0;
      while i < |ms|
        invariant 0 <= i <= |ms|
        invariant kept == Survivors(ms[..i], chatId, after)
      {
        if !Doomed(ms[i], chatId, after) {
          kept := kept + [ms[i]];
        }
        assert ms[..i + 1][..i] == ms[..i];
        i := i + 1;
      }
      assert ms[..i] == ms;
      messages := kept;
    }

    /** `messages.deleteAfter`: the chat's messages stamped strictly after the threshold go. */
    method DeleteAfter(chatId: string, afterCreationTime: int)
      modifies this
      ensures messages == Survivors(old(messages), chatId, Some(afterCreationTime))
      ensures chats == old(chats)
    {
      DeleteMessages(chatId, Some(afterCreationTime));
    }

    /** `messages.deleteByChatId`: all the chat's messages go. */
    method DeleteByChatId(chatId: string)
      modifies this
      ensures messages == Survivors(old(messages), chatId, None)
      ensures chats == old(chats)
    {
      DeleteMessages(chatId, None);
    }

    // -------------------------------------------------------------------------
    // chats

    /** `chats.list`: newest first. */
    function ListChats(): (r: seq<ChatRecord>)
      reads this
      ensures |r| == |chats|
      ensures forall i :: 0 <= i < |chats| ==> r[i] == chats[|chats| - 1 - i]
    {
      Reversed(chats)
    }

    /** `chats.getById`: the first chat with the id, or nothing. */
    function GetChatById(chatId: string): (r: Option<ChatRecord>)
      reads this
      ensures r.None? <==> forall j :: 0 <= j < |chats| ==> chats[j].chatId != chatId
      ensures r.Some? ==> r.value in chats && r.value.chatId == chatId
      ensures r.Some? ==> exists i :: 0 <= i < |chats| && chats[i] == r.value &&
                                       forall j :: 0 <= j < i ==> chats[j].chatId != chatId
    {
      match ChatIndex(chats, chatId)
      case None => None
      case Some(i) => Some(chats[i])
    }

    /** `chats.create`. */
    method CreateChat(args: ChatArgs)
      modifies this
      ensures chats == old(chats) + [NewChat(args)]
      ensures messages == old(messages)
    {
      chats := chats + [NewChat(args)];
    }

    /** `chats.deleteById`: the chat goes if present, and all messages with its id go even when
        it is absent. */
    method DeleteChat(chatId: string)
      modifies this
      ensures ChatIndex(old(chats), chatId).None? ==> chats == old(chats)
      ensures ChatIndex(old(chats), chatId).Some? ==>
        var i := ChatIndex(old(chats), chatId).value;
        chats == old(chats)[..i] + old(chats)[i + 1..]
      ensures messages == Survivors(old(messages), chatId, None)
    {
      var found := ChatIndex(chats, chatId);
      if found.Some? {
        chats := chats[..found.value] + chats[found.value + 1..];
      }
      DeleteMessages(chatId, None);
    }
  }
}
