/** The persistence layer of the API server (api/internal/database/
    database.go) as in-memory tables: the execution history log, the
    conversations and their messages, and the prompt library. Rows are kept
    in insertion order; row ids come from per-table counters. */
module Database {
  import opened Wrappers

  const DefaultTitle: string := "New Conversation"
  /** `GetHistory` returns at most this many records. */
  const HistoryLimit: nat := 50

  // ---------------------------------------------------------------------
  // History

  datatype SaveHistoryRequest = SaveHistoryRequest(
    prompt: string, model: string, temperature: real, maxTokens: int,
    success: bool, response: string, errorMsg: string)

  datatype HistoryItem = HistoryItem(
    id: nat, timestamp: nat, prompt: string, model: string, temperature: real,
    maxTokens: int, success: bool, response: string, errorMsg: string)

  /** The row `SaveHistory` inserts: the request's fields, a fresh id and
      the insertion time. */
  function HistoryRow(req: SaveHistoryRequest, id: nat, now: nat): (item: HistoryItem)
    ensures item.id == id && item.timestamp == now
    ensures item.prompt == req.prompt && item.model == req.model && item.temperature == req.temperature
    ensures item.maxTokens == req.maxTokens && item.success == req.success
    ensures item.response == req.response && item.errorMsg == req.errorMsg
  {
    HistoryItem(id, now, req.prompt, req.model, req.temperature, req.maxTokens, req.success, req.response, req.errorMsg)
  }

  /** The `limit` most recently inserted records, newest first. */
  function Newest(log: seq<HistoryItem>, limit: nat): (r: seq<HistoryItem>)
    ensures |r| == if |log| <= limit then |log| else limit
    ensures forall i :: 0 <= i < |r| ==> r[i] == log[|log| - 1 - i]
  {
    if limit == 0 || log == [] then []
    else [log[|log| - 1]] + Newest(log[..|log| - 1], limit - 1)
  }

  // ---------------------------------------------------------------------
  // Conversations

  /** A message as sent by the client. */
  datatype MessageIn = MessageIn(role: string, content: string, timestamp: nat)

  /** A row of the conversation_messages table. */
  datatype MessageRow = MessageRow(id: nat, conversationId: string, role: string, content: string, timestamp: nat)

  datatype SaveConversationRequest = SaveConversationRequest(conversationId: string, title: string, messages: seq<MessageIn>)

  /** A conversation as returned by `GetConversation`. */
  datatype Conversation = Conversation(id: string, title: string, messages: seq<MessageRow>)

  /** An entry of the conversation list. */
  datatype ConversationSummary = ConversationSummary(id: string, title: string)

  /** The conversations table (id to title), the messages table and the
      next message row id. */
  datatype Tables = Tables(conversations: map<string, string>, messages: seq<MessageRow>, nextMessageId: nat)

  /** Every message row belongs to a conversation that exists. */
  predicate NoOrphans(t: Tables) {
    forall i :: 0 <= i < |t.messages| ==> t.messages[i].conversationId in t.conversations
  }

  /** The rows inserted for a message list, numbered from `start`. */
  function Rows(id: string, msgs: seq<MessageIn>, start: nat): (r: seq<MessageRow>)
    ensures |r| == |msgs|
    ensures forall i :: 0 <= i < |msgs| ==>
      r[i] == MessageRow(start + i, id, msgs[i].role, msgs[i].content, msgs[i].timestamp)
  {
    seq(|msgs|, i requires 0 <= i < |msgs| => MessageRow(start + i, id, msgs[i].role, msgs[i].content, msgs[i].timestamp))
  }

  /** What a client reads back from message rows: role, content, stamp. */
  function Contents(rows: seq<MessageRow>): (r: seq<MessageIn>)
    ensures |r| == |rows|
    ensures forall i :: 0 <= i < |rows| ==> r[i] == MessageIn(rows[i].role, rows[i].content, rows[i].timestamp)
  {
    seq(|rows|, i requires 0 <= i < |rows| => MessageIn(rows[i].role, rows[i].content, rows[i].timestamp))
  }

  /** Reading back the rows of a message list gives that list. */
  lemma ContentsOfRows(id: string, msgs: seq<MessageIn>, start: nat)
    ensures Contents(Rows(id, msgs, start)) == msgs
  {
  }

  /** `WHERE conversation_id = ?`: the rows of one conversation, in order. */
  function MessagesOf(rows: seq<MessageRow>, id: string): (r: seq<MessageRow>)
    ensures |r| <= |rows|
    ensures forall i :: 0 <= i < |r| ==> r[i].conversationId == id
  {
    if rows == [] then []
    else
      var init := MessagesOf(rows[..|rows| - 1], id);
      if rows[|rows| - 1].conversationId == id then init + [rows[|rows| - 1]] else init
  }

  /** `DELETE ... WHERE conversation_id = ?`: the rows of all other
      conversations, in order. */
  function Without(rows: seq<MessageRow>, id: string): (r: seq<MessageRow>)
    ensures |r| <= |rows|
    ensures forall i :: 0 <= i < |r| ==> r[i].conversationId != id
    ensures forall i :: 0 <= i < |r| ==> r[i] in rows
  {
    if rows == [] then []
    else
      var init := Without(rows[..|rows| - 1], id);
      if rows[|rows| - 1].conversationId != id then init + [rows[|rows| - 1]] else init
  }

  lemma {:induction false} MessagesOfAppend(a: seq<MessageRow>, b: seq<MessageRow>, id: string)
    ensures MessagesOf(a + b, id) == MessagesOf(a, id) + MessagesOf(b, id)
  {
    if b != [] {
      var b' := b[..|b| - 1];
      assert (a + b)[..|a + b| - 1] == a + b';
      MessagesOfAppend(a, b', id);
    } else {
      assert a + b == a;
    }
  }

  lemma {:induction false} MessagesOfNone(rows: seq<MessageRow>, id: string)
    requires forall i :: 0 <= i < |rows| ==> rows[i].conversationId != id
    ensures MessagesOf(rows, id) == []
  {
    if rows != [] {
      MessagesOfNone(rows[..|rows| - 1], id);
    }
  }

  lemma {:induction false} MessagesOfAll(rows: seq<MessageRow>, id: string)
    requires forall i :: 0 <= i < |rows| ==> rows[i].conversationId == id
    ensures MessagesOf(rows, id) == rows
  {
    if rows != [] {
      MessagesOfAll(rows[..|rows| - 1], id);
    }
  }

  /** `SaveConversation`: an unknown id is created with the request title
      ("New Conversation" when empty); a known id gets the request title,
      even an empty one, and its message rows are replaced by the
      request's messages. */
  function SaveConv(t: Tables, req: SaveConversationRequest): (t': Tables)
    ensures req.conversationId in t'.conversations
    ensures t'.conversations.Keys == t.conversations.Keys + {req.conversationId}
    ensures t'.nextMessageId == t.nextMessageId + |req.messages|
  {
    var id := req.conversationId;
    if id in t.conversations then
      Tables(t.conversations[id := req.title],
             Without(t.messages, id) + Rows(id, req.messages, t.nextMessageId),
             t.nextMessageId + |req.messages|)
    else
      Tables(t.conversations[id := if req.title == "" then DefaultTitle else req.title],
             t.messages + Rows(id, req.messages, t.nextMessageId),
             t.nextMessageId + |req.messages|)
  }

  /** `DeleteConversation` as the code runs it: only the conversation row
      goes, because the schema's cascade is not enforced (SQLite leaves
      foreign keys off unless a connection turns them on). */
  function DeleteConvAsWritten(t: Tables, id: string): (t': Tables)
    ensures id !in t'.conversations
    ensures t'.messages == t.messages
  {
    Tables(t.conversations - {id}, t.messages, t.nextMessageId)
  }

  /** `DeleteConversation` with the `ON DELETE CASCADE` the schema declares:
      the conversation and all of its messages go. */
  function DeleteConv(t: Tables, id: string): (t': Tables)
    ensures id !in t'.conversations
    ensures t'.conversations.Keys == t.conversations.Keys - {id}
  {
    Tables(t.conversations - {id}, Without(t.messages, id), t.nextMessageId)
  }

  /** `GetConversation`: nothing for an unknown id, else the title and the
      conversation's messages in insertion order. */
  function View(t: Tables, id: string): (r: Option<Conversation>)
    ensures r.None? <==> id !in t.conversations
  {
    if id in t.conversations then Some(Conversation(id, t.conversations[id], MessagesOf(t.messages, id)))
    else None
  }

  /** Saving never leaves a message without its conversation. */
  lemma SaveConvNoOrphans(t: Tables, req: SaveConversationRequest)
    requires NoOrphans(t)
    ensures NoOrphans(SaveConv(t, req))
  {
    var t' := SaveConv(t, req);
    forall i | 0 <= i < |t'.messages|
      ensures t'.messages[i].conversationId in t'.conversations
    {
      var id := req.conversationId;
      if id in t.conversations {
        var kept := Without(t.messages, id);
        if i < |kept| {
          assert kept[i] in t.messages;
        }
      }
    }
  }

  /** Deleting with the cascade never leaves a message behind. */
  lemma DeleteConvNoOrphans(t: Tables, id: string)
    requires NoOrphans(t)
    ensures NoOrphans(DeleteConv(t, id))
  {
    var kept := Without(t.messages, id);
    forall i | 0 <= i < |kept|
      ensures kept[i].conversationId in t.conversations - {id}
    {
      assert kept[i] in t.messages;
    }
  }

  /** After a save, the conversation's rows are exactly the new rows: an
      existing conversation has its rows replaced whatever else the table
      holds, and a new one starts from the rows of its id, which are none
      unless an earlier row-only delete left some behind. */
  lemma SaveConvRows(t: Tables, req: SaveConversationRequest)
    requires req.conversationId in t.conversations || MessagesOf(t.messages, req.conversationId) == []
    ensures MessagesOf(SaveConv(t, req).messages, req.conversationId)
         == Rows(req.conversationId, req.messages, t.nextMessageId)
  {
    var id := req.conversationId;
    var added := Rows(id, req.messages, t.nextMessageId);
    MessagesOfAll(added, id);
    var kept := if id in t.conversations then Without(t.messages, id) else t.messages;
    assert SaveConv(t, req).messages == kept + added;
    MessagesOfAppend(kept, added, id);
    if id in t.conversations {
      MessagesOfNone(kept, id);
    }
  }

  /** A store where every message has its conversation holds no rows for
      an unknown id. */
  lemma NoOrphansUnknownEmpty(t: Tables, id: string)
    requires NoOrphans(t) && id !in t.conversations
    ensures MessagesOf(t.messages, id) == []
  {
    MessagesOfNone(t.messages, id);
  }

  /** Saving is a snapshot replace: reading the conversation back right
      after a save yields exactly the saved messages, in order, whatever
      the conversation held before. */
  lemma SaveConvSnapshot(t: Tables, req: SaveConversationRequest)
    requires req.conversationId in t.conversations || MessagesOf(t.messages, req.conversationId) == []
    ensures View(SaveConv(t, req), req.conversationId).Some?
    ensures Contents(View(SaveConv(t, req), req.conversationId).value.messages) == req.messages
    ensures View(SaveConv(t, req), req.conversationId).value.title ==
      if req.conversationId !in t.conversations && req.title == "" then DefaultTitle else req.title
  {
    SaveConvRows(t, req);
    ContentsOfRows(req.conversationId, req.messages, t.nextMessageId);
  }

  /** A deleted conversation reads back as absent. */
  lemma DeleteConvView(t: Tables, id: string)
    ensures View(DeleteConv(t, id), id) == None
    ensures View(DeleteConvAsWritten(t, id), id) == None
  {
  }

  /** Deleting an unknown id changes nothing, in any store. */
  lemma DeleteUnknownConv(t: Tables, id: string)
    requires id !in t.conversations
    ensures DeleteConvAsWritten(t, id) == t
  {
    assert t.conversations - {id} == t.conversations;
  }

  /** With the cascade, deleting an unknown id changes nothing when every
      message has its conversation. */
  lemma DeleteUnknownConvCascade(t: Tables, id: string)
    requires NoOrphans(t) && id !in t.conversations
    ensures DeleteConv(t, id) == t
  {
    assert t.conversations - {id} == t.conversations;
    WithoutNone(t.messages, id);
  }

  lemma {:induction false} WithoutNone(rows: seq<MessageRow>, id: string)
    requires forall i :: 0 <= i < |rows| ==> rows[i].conversationId != id
    ensures Without(rows, id) == rows
  {
    if rows != [] {
      WithoutNone(rows[..|rows| - 1], id);
    }
  }

  /** With the delete as written, a conversation deleted and then saved
      again under the same id reads back with its old messages in front of
      the new snapshot. */
  lemma OrphansResurface(t: Tables, req: SaveConversationRequest)
    requires req.conversationId in t.conversations
    ensures var id := req.conversationId;
      var after := SaveConv(DeleteConvAsWritten(t, id), req);
      MessagesOf(after.messages, id) == MessagesOf(t.messages, id) + Rows(id, req.messages, t.nextMessageId)
  {
    var id := req.conversationId;
    var added := Rows(id, req.messages, t.nextMessageId);
    assert SaveConv(DeleteConvAsWritten(t, id), req).messages == t.messages + added;
    MessagesOfAppend(t.messages, added, id);
    MessagesOfAll(added, id);
  }

  /** So whenever the deleted conversation had messages, the snapshot
      round trip fails: what is read back is longer than what was saved. */
  lemma OrphansBreakSnapshot(t: Tables, req: SaveConversationRequest)
    requires req.conversationId in t.conversations
    requires MessagesOf(t.messages, req.conversationId) != []
    ensures var after := SaveConv(DeleteConvAsWritten(t, req.conversationId), req);
      Contents(View(after, req.conversationId).value.messages) != req.messages
  {
    OrphansResurface(t, req);
  }

  /** With the cascading delete, saving again after a delete reads back
      exactly the new snapshot, in any store. */
  lemma CascadeForgets(t: Tables, req: SaveConversationRequest)
    ensures var after := SaveConv(DeleteConv(t, req.conversationId), req);
      Contents(View(after, req.conversationId).value.messages) == req.messages
  {
    var id := req.conversationId;
    MessagesOfNone(Without(t.messages, id), id);
    SaveConvSnapshot(DeleteConv(t, id), req);
  }

  // ---------------------------------------------------------------------
  // Prompt library

  datatype SavePromptRequest = SavePromptRequest(
    title: string, content: string, description: string, category: string, tags: seq<string>)

  datatype UpdatePromptRequest = UpdatePromptRequest(
    id: int, title: string, content: string, description: string, category: string, tags: seq<string>)

  datatype SavedPrompt = SavedPrompt(
    id: nat, title: string, content: string, description: string, category: string,
    tags: string, usageCount: nat)

  const HexDigits: string := "0123456789abcdef"

  /** One character as it appears inside a JSON string written by
      `json.Marshal` (Go 1.22 and later): quote and backslash escaped,
      backspace, form feed, line feed, carriage return and tab by their
      short escapes, other control characters and the HTML-sensitive `<`,
      `>`, `&` and the line and paragraph separators as `\u` escapes. */
  function EscapeChar(c: char): (r: string)
    ensures |r| >= 1
    ensures r[0] == c || r[0] == '\\'
  {
    if c == '"' then "\\\""
    else if c == '\\' then "\\\\"
    else if c == '\n' then "\\n"
    else if c == '\r' then "\\r"
    else if c == '\t' then "\\t"
    else if c == '\U{8}' then "\\b"
    else if c == '\U{C}' then "\\f"
    else if c < ' ' || c == '<' || c == '>' || c == '&' then
      "\\u00" + [HexDigits[c as int / 16], HexDigits[c as int % 16]]
    else if c == '\U{2028}' then "\\u2028"
    else if c == '\U{2029}' then "\\u2029"
    else [c]
  }

  /** The characters of a string, escaped, between double quotes. */
  function JsonString(s: string): (r: string)
    ensures |r| >= 2 && r[0] == '"' && r[|r| - 1] == '"'
  {
    "\"" + EscapeBody(s) + "\""
  }

  function EscapeBody(s: string): string
  {
    if s == [] then [] else EscapeBody(s[..|s| - 1]) + EscapeChar(s[|s| - 1])
  }

  /** The comma-separated elements of a JSON array. */
  function JsonElements(tags: seq<string>): string
  {
    if tags == [] then []
    else if |tags| == 1 then JsonString(tags[0])
    else JsonElements(tags[..|tags| - 1]) + "," + JsonString(tags[|tags| - 1])
  }

  /** The tags column: "[]" for no tags, else the JSON array of the tags. */
  function TagsJson(tags: seq<string>): (r: string)
    ensures |r| >= 2 && r[0] == '[' && r[|r| - 1] == ']'
    ensures r == "[]" <==> tags == []
  {
    if tags == [] then "[]"
    else
      NonEmptyElements(tags);
      "[" + JsonElements(tags) + "]"
  }

  /** A non-empty tag list never encodes to the empty array. */
  lemma {:induction false} NonEmptyElements(tags: seq<string>)
    requires tags != []
    ensures |JsonElements(tags)| >= 2 && JsonElements(tags)[0] == '"'
  {
    if |tags| > 1 {
      NonEmptyElements(tags[..|tags| - 1]);
    }
  }

  /** One tag is stored as a one-element JSON array. */
  lemma OneTag(t: string)
    ensures TagsJson([t]) == "[" + JsonString(t) + "]"
  {
  }

  /** Escaping works character by character. */
  lemma EscapeSnoc(s: string, c: char)
    ensures EscapeBody(s + [c]) == EscapeBody(s) + EscapeChar(c)
  {
    assert (s + [c])[..|s|] == s;
  }

  /** Three characters escape one after the other. */
  lemma EscapeThree(x: char, y: char, z: char)
    ensures EscapeBody([x, y, z]) == EscapeChar(x) + EscapeChar(y) + EscapeChar(z)
  {
    var ex, ey, ez := EscapeChar(x), EscapeChar(y), EscapeChar(z);
    assert EscapeBody([x]) == ex by {
      EscapeSnoc([], x);
      assert [x] == [] + [x];
    }
    assert EscapeBody([x, y]) == ex + ey by {
      EscapeSnoc([x], y);
      assert [x, y] == [x] + [y];
    }
    EscapeSnoc([x, y], z);
    assert [x, y, z] == [x, y] + [z];
  }

  /** A double quote inside a tag is escaped with a backslash. */
  lemma EscapeQuoteExample()
    ensures EscapeBody("a\"b") == "a\\\"b"
  {
    EscapeThree('a', '"', 'b');
    assert EscapeChar('a') == "a" && EscapeChar('"') == "\\\"" && EscapeChar('b') == "b";
  }

  /** The tag `a"b` is stored as `["a\"b"]`. */
  lemma TagsExample()
    ensures TagsJson(["a\"b"]) == "[\"a\\\"b\"]"
  {
    OneTag("a\"b");
    EscapeQuoteExample();
  }

  /** Some key of a non-empty key set (which one is left open). */
  method PickKey(keys: set<nat>) returns (k: nat)
    requires keys != {}
    ensures k in keys
  {
    k :| k in keys;
  }

  // ---------------------------------------------------------------------
  // The store

  class Store {
    var history: seq<HistoryItem>
    var nextHistoryId: nat
    var conversations: map<string, string>
    var messages: seq<MessageRow>
    var nextMessageId: nat
    var prompts: map<nat, SavedPrompt>
    var nextPromptId: nat

    function ConvTables(): Tables
      reads this
    {
      Tables(conversations, messages, nextMessageId)
    }

    /** Prompt ids are positive, below the next id, and match their key.
        Message rows may outlive their conversation: the delete does not
        cascade. */
    predicate Valid()
      reads this
    {
      && nextPromptId >= 1
      && (forall id :: id in prompts ==> 0 < id < nextPromptId && prompts[id].id == id)
    }

    constructor ()
      ensures Valid()
      ensures history == [] && conversations == map[] && messages == [] && prompts == map[]
    {
      history := [];
      nextHistoryId := 1;
      conversations := map[];
      messages := [];
      nextMessageId := 1;
      prompts := map[];
      nextPromptId := 1;
    }

    /** The newest 50 history records, newest first. */
    method GetHistory() returns (items: seq<HistoryItem>)
      ensures items == Newest(history, HistoryLimit)
    {
      items := [];
      var i := 0;
      while i < |history| && i < HistoryLimit
        invariant 0 <= i <= |history| && i <= HistoryLimit
        invariant |items| == i
        invariant forall k :: 0 <= k < i ==> items[k] == history[|history| - 1 - k]
      {
        items := items + [history[|history| - 1 - i]];
        i := i + 1;
      }
    }

    /** Append one record holding the request's fields. */
    method SaveHistory(req: SaveHistoryRequest, now: nat)
      modifies this
      ensures history == old(history) + [HistoryRow(req, old(nextHistoryId), now)]
      ensures nextHistoryId == old(nextHistoryId) + 1
      ensures ConvTables() == old(ConvTables()) && prompts == old(prompts) && nextPromptId == old(nextPromptId)
    {
      history := history + [HistoryRow(req, nextHistoryId, now)];
      nextHistoryId := nextHistoryId + 1;
    }

    /** Empty the history log; ids keep counting up. */
    method ClearHistory()
      modifies this
      ensures history == [] && nextHistoryId == old(nextHistoryId)
      ensures ConvTables() == old(ConvTables()) && prompts == old(prompts) && nextPromptId == old(nextPromptId)
    {
      history := [];
    }

    /** Every conversation once, with its title; the order (most recently
        updated first) is not modelled. */
    method GetConversations() returns (r: seq<ConversationSummary>)
      ensures |r| == |conversations|
      ensures forall i :: 0 <= i < |r| ==> r[i].id in conversations && r[i].title == conversations[r[i].id]
      ensures forall i, j :: 0 <= i < j < |r| ==> r[i].id != r[j].id
    {
      r := [];
      var left := conversations.Keys;
      while left != {}
        invariant left <= conversations.Keys
        invariant |r| + |left| == |conversations.Keys|
        invariant forall i :: 0 <= i < |r| ==>
          (r[i].id in conversations && r[i].id !in left && r[i].title == conversations[r[i].id])
        invariant forall i, j :: 0 <= i < j < |r| ==> r[i].id != r[j].id
        decreases |left|
      {
        var id :| id in left;
        r := r + [ConversationSummary(id, conversations[id])];
        left := left - {id};
      }
    }

    /** The conversation and its messages, or nothing for an unknown id. */
    method GetConversation(id: string) returns (r: Option<Conversation>)
      ensures r == View(ConvTables(), id)
    {
      if id !in conversations {
        return None;
      }
      var found: seq<MessageRow> := [];
      var i := 0;
      while i < |messages|
        invariant 0 <= i <= |messages|
        invariant found == MessagesOf(messages[..i], id)
      {
        if messages[i].conversationId == id {
          found := found + [messages[i]];
        }
        assert messages[..i + 1][..i] == messages[..i];
        i := i + 1;
      }
      assert messages[..i] == messages;
      r := Some(Conversation(id, conversations[id], found));
    }

    /** Create or overwrite a conversation and replace its messages. */
    method SaveConversation(req: SaveConversationRequest)
      requires Valid()
      modifies this
      ensures Valid()
      ensures ConvTables() == SaveConv(old(ConvTables()), req)
      ensures history == old(history) && prompts == old(prompts) && nextPromptId == old(nextPromptId)
    {
      var id := req.conversationId;
      if id in conversations {
        conversations := conversations[id := req.title];
        messages := Without(messages, id);
      } else {
        conversations := conversations[id := if req.title == "" then DefaultTitle else req.title];
      }
      AppendRows(id, req.messages);
    }

    /** The insert loop of a save: one row per message, numbered from the
        next message id on. */
    method AppendRows(id: string, msgs: seq<MessageIn>)
      modifies this
      ensures messages == old(messages) + Rows(id, msgs, old(nextMessageId))
      ensures nextMessageId == old(nextMessageId) + |msgs|
      ensures conversations == old(conversations)
      ensures history == old(history) && nextHistoryId == old(nextHistoryId)
      ensures prompts == old(prompts) && nextPromptId == old(nextPromptId)
    {
      var start := nextMessageId;
      var i := 0;
      while i < |msgs|
        invariant 0 <= i <= |msgs|
        invariant messages == old(messages) + Rows(id, msgs[..i], start)
        invariant nextMessageId == start + i
        invariant conversations == old(conversations)
        invariant history == old(history) && nextHistoryId == old(nextHistoryId)
        invariant prompts == old(prompts) && nextPromptId == old(nextPromptId)
      {
        var m := msgs[i];
        messages := messages + [MessageRow(nextMessageId, id, m.role, m.content, m.timestamp)];
        nextMessageId := nextMessageId + 1;
        i := i + 1;
        assert Rows(id, msgs[..i], start) == Rows(id, msgs[..i - 1], start) + [MessageRow(start + i - 1, id, m.role, m.content, m.timestamp)];
      }
      assert msgs[..i] == msgs;
    }

    /** Delete a conversation row as the code does: its message rows stay
        behind, since the schema's cascade is never enforced; an unknown id
        is not an error. */
    method DeleteConversation(id: string)
      requires Valid()
      modifies this
      ensures Valid()
      ensures ConvTables() == DeleteConvAsWritten(old(ConvTables()), id)
      ensures history == old(history) && prompts == old(prompts) && nextPromptId == old(nextPromptId)
    {
      conversations := conversations - {id};
    }

    /** Every saved prompt once; the order (most recently updated first) is
        not modelled. */
    method GetSavedPrompts() returns (r: seq<SavedPrompt>)
      requires Valid()
      ensures |r| == |prompts|
      ensures forall i :: 0 <= i < |r| ==> r[i].id in prompts && r[i] == prompts[r[i].id]
      ensures forall i, j :: 0 <= i < j < |r| ==> r[i].id != r[j].id
    {
      r := [];
      var left := prompts.Keys;
      while left != {}
        invariant left <= prompts.Keys
        invariant |r| + |left| == |prompts.Keys|
        invariant forall i :: 0 <= i < |r| ==> r[i].id in prompts && r[i].id !in left && r[i] == prompts[r[i].id]
        invariant forall i, j :: 0 <= i < j < |r| ==> r[i].id != r[j].id
        decreases |left|
      {
        var id := PickKey(left);
        r := r + [prompts[id]];
        left := left - {id};
      }
    }

    /** The prompt with this id, or nothing. */
    method GetSavedPrompt(id: int) returns (r: Option<SavedPrompt>)
      ensures id in prompts ==> r == Some(prompts[id])
      ensures id !in prompts ==> r == None
    {
      if id in prompts {
        r := Some(prompts[id]);
      } else {
        r := None;
      }
    }

    /** Insert a prompt under a fresh id with usage 0, storing the category
        exactly as sent and the tags as JSON. */
    method SavePrompt(req: SavePromptRequest) returns (r: Option<SavedPrompt>)
      requires Valid()
      modifies this
      ensures Valid()
      ensures old(nextPromptId) !in old(prompts)
      ensures r == Some(SavedPrompt(old(nextPromptId), req.title, req.content, req.description,
        req.category, TagsJson(req.tags), 0))
      ensures prompts == old(prompts)[old(nextPromptId) := r.value]
      ensures nextPromptId == old(nextPromptId) + 1
      ensures history == old(history) && ConvTables() == old(ConvTables())
    {
      var p := SavedPrompt(nextPromptId, req.title, req.content, req.description, req.category, TagsJson(req.tags), 0);
      prompts := prompts[nextPromptId := p];
      nextPromptId := nextPromptId + 1;
      r := GetSavedPrompt(p.id);
    }

    /** Rewrite a prompt's editable fields, keeping its usage count; an
        unknown id changes nothing and reads back as nothing. */
    method UpdatePrompt(req: UpdatePromptRequest) returns (r: Option<SavedPrompt>)
      requires Valid()
      modifies this
      ensures Valid()
      ensures req.id !in old(prompts) ==> r == None && prompts == old(prompts)
      ensures req.id in old(prompts) ==>
        r == Some(SavedPrompt(req.id, req.title, req.content, req.description, req.category,
          TagsJson(req.tags), old(prompts)[req.id].usageCount))
        && prompts == old(prompts)[req.id := r.value]
      ensures nextPromptId == old(nextPromptId) && history == old(history) && ConvTables() == old(ConvTables())
    {
      if req.id in prompts {
        var p := prompts[req.id];
        prompts := prompts[req.id := SavedPrompt(req.id, req.title, req.content, req.description,
          req.category, TagsJson(req.tags), p.usageCount)];
      }
      r := GetSavedPrompt(req.id);
    }

    /** Remove a prompt; an unknown id is not an error. */
    method DeletePrompt(id: int)
      requires Valid()
      modifies this
      ensures Valid()
      ensures prompts == old(prompts) - {id}
      ensures nextPromptId == old(nextPromptId) && history == old(history) && ConvTables() == old(ConvTables())
    {
      prompts := prompts - {id};
    }

    /** Raise a prompt's usage count by exactly one. */
    method IncrementPromptUsage(id: int)
      requires Valid()
      modifies this
      ensures Valid()
      ensures id in old(prompts) ==>
        prompts == old(prompts)[id := old(prompts)[id].(usageCount := old(prompts)[id].usageCount + 1)]
      ensures id !in old(prompts) ==> prompts == old(prompts)
      ensures nextPromptId == old(nextPromptId) && history == old(history) && ConvTables() == old(ConvTables())
    {
      if id in prompts {
        prompts := prompts[id := prompts[id].(usageCount := prompts[id].usageCount + 1)];
      }
    }
  }
}
