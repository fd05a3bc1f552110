/** The prompt-engineering chat session of the browser client
    (frontend/prompt-generator.js): one current conversation, the durably
    stored id of the last active conversation, and the requests the session
    sends to the server. Every fetch outcome is an input; every `await`
    is one atomic step. */
module Session {
  import opened Wrappers
  import opened Text

  /** A chat message; `timestamp` is an opaque stamp supplied by the clock. */
  datatype Message = Message(role: string, content: string, timestamp: nat)

  /** A message as sent to the model: role and content only. */
  datatype OutMessage = OutMessage(role: string, content: string)

  /** The body of `POST /conversations`. */
  datatype SaveRequest = SaveRequest(conversationId: string, title: string, messages: seq<Message>)

  /** The requests the session issues, in the order it issues them. */
  datatype Request =
    | SaveConv(save: SaveRequest)
    | LoadConv(id: string)
    | DeleteConv(id: string)
    | ListConvs
    | Engineer(messages: seq<OutMessage>, model: string, temperature: real)

  /** How `GET /conversations/{id}` ended: a conversation (whose message
      list may be absent), a refusal (`success` false or no data), or a
      thrown error. */
  datatype LoadOutcome = LoadOk(messages: Option<seq<Message>>) | LoadRefused | LoadThrew

  /** How `POST /prompt-engineer` ended: a reply, a refusal carrying an
      optional error text, or a thrown error with its message. */
  datatype ReplyOutcome = Replied(content: string) | ReplyRefused(error: Option<string>) | ReplyThrew(message: string)

  /** How `DELETE /conversations/{id}` ended. */
  datatype DeleteOutcome = Deleted | DeleteRefused | DeleteThrew

  const SystemPrompt: string :=
    "You are a professional prompt engineer. Optimize prompts for AI systems through iterative refinement.\n\n"
    + "Process:\n"
    + "1. Analyze the user's prompt objective and requirements\n"
    + "2. Generate two sections:\n"
    + "   a. Revised prompt: Clear, optimized version\n"
    + "   b. Questions: Specific clarifications needed for further improvement\n"
    + "3. Continue refinement until the prompt meets professional standards\n\n"
    + "Focus on clarity, specificity, and effectiveness."

  const Greeting: string :=
    "**Prompt Engineering Session**\n\nDefine your prompt objective and target use case to begin optimization."

  const DefaultTitle: string := "New Conversation"

  /** `conversation.find(msg => msg.role === 'user')`. */
  function FindFirstUser(msgs: seq<Message>): Option<Message>
  {
    if msgs == [] then None
    else if msgs[0].role == "user" then Some(msgs[0])
    else FindFirstUser(msgs[1..])
  }

  /** The search finds the earliest user message. */
  lemma {:induction false} FindFirstUserFinds(msgs: seq<Message>, k: nat)
    requires k < |msgs| && msgs[k].role == "user"
    requires forall j :: 0 <= j < k ==> msgs[j].role != "user"
    ensures FindFirstUser(msgs) == Some(msgs[k])
  {
    if k > 0 {
      FindFirstUserFinds(msgs[1..], k - 1);
    }
  }

  /** The search comes back empty exactly when no message is from the user. */
  lemma {:induction false} FindFirstUserNone(msgs: seq<Message>)
    ensures FindFirstUser(msgs) == None <==> forall j :: 0 <= j < |msgs| ==> msgs[j].role != "user"
  {
    if msgs != [] {
      FindFirstUserNone(msgs[1..]);
      if msgs[0].role != "user" {
        assert forall j :: 1 <= j < |msgs| ==> msgs[j] == msgs[1..][j - 1];
      }
    }
  }

  /** The title sent with every save: the first user message cut to 50
      UTF-16 code units, with "..." when it was longer, else "New
      Conversation". */
  function ConversationTitle(msgs: seq<Message>): (title: string)
    ensures |title| <= 53
  {
    match FindFirstUser(msgs)
    case Some(m) => Ellipsize(m.content, 50)
    case None => DefaultTitle
  }

  /** The title of a conversation is derived from its earliest user
      message: whole when it fits in 50 code units, otherwise its longest
      prefix that fits followed by "...". Without surrogate pairs that is
      the first 50 characters. */
  lemma TitleFromFirstUser(msgs: seq<Message>, k: nat)
    requires k < |msgs| && msgs[k].role == "user"
    requires forall j :: 0 <= j < k ==> msgs[j].role != "user"
    ensures var c := msgs[k].content;
      && (Utf16Length(c) <= 50 ==> ConversationTitle(msgs) == c)
      && (Utf16Length(c) > 50 ==> ConversationTitle(msgs) == TakeUnits(c, 50) + "...")
      && (InBmp(c) && |c| <= 50 ==> ConversationTitle(msgs) == c)
      && (InBmp(c) && |c| > 50 ==> ConversationTitle(msgs) == c[..50] + "...")
  {
    FindFirstUserFinds(msgs, k);
    var c := msgs[k].content;
    Utf16LengthBmp(c);
    if InBmp(c) {
      TakeUnitsBmp(c, 50);
    }
  }

  /** A conversation without user messages is titled "New Conversation". */
  lemma TitleWithoutUser(msgs: seq<Message>)
    requires forall j :: 0 <= j < |msgs| ==> msgs[j].role != "user"
    ensures ConversationTitle(msgs) == "New Conversation"
  {
    FindFirstUserNone(msgs);
  }

  /** A long first message without surrogate pairs is cut after its
      fiftieth character. */
  lemma TitleOfLongBmp(c: string)
    requires InBmp(c) && |c| > 50
    ensures ConversationTitle([Message("user", c, 0)]) == c[..50] + "..."
  {
    TitleFromFirstUser([Message("user", c, 0)], 0);
  }

  /** The 60-character first message "Explain quantum computing in simple
      terms for a ten year old", given in four pieces, is cut after its
      fiftieth character, the end of the third piece. */
  lemma TitleExample(a: string, b: string, d: string, e: string)
    requires a == "Explain quantum comp" && b == "uting in simple term"
    requires d == "s for a te" && e == "n year old"
    ensures ConversationTitle([Message("user", a + b + d + e, 0)]) == a + b + d + "..."
  {
    var question := a + b + d + e;
    assert InBmp(question) by {
      assert InBmp(a) && InBmp(b) && InBmp(d) && InBmp(e);
      InBmpAppend(a, b);
      InBmpAppend(a + b, d);
      InBmpAppend(a + b + d, e);
    }
    TitleOfLongBmp(question);
    assert question[..50] == a + b + d;
  }

  /** Thirty characters outside the Basic Multilingual Plane are sixty code
      units, so the title keeps twenty-five of them and adds "...". */
  lemma TitleSurrogateExample(e: char)
    requires e as int >= 0x1_0000
    ensures ConversationTitle([Message("user", seq(30, _ => e), 0)]) == seq(25, _ => e) + "..."
  {
    var c := seq(30, _ => e);
    Utf16LengthAstral(c);
    TakeUnitsAstral(c, 25);
    TitleFromFirstUser([Message("user", c, 0)], 0);
  }

  /** The save `saveConversation` issues in the given state: none without an
      id or without messages, else one carrying every message in order. */
  function SavePayload(id: Option<string>, conversation: seq<Message>): (out: seq<Request>)
    ensures |out| <= 1
    ensures out == [] <==> id.None? || id.value == "" || conversation == []
    ensures out != [] ==> out[0] == SaveConv(SaveRequest(id.value, ConversationTitle(conversation), conversation))
  {
    if id.None? || id.value == "" || conversation == [] then []
    else [SaveConv(SaveRequest(id.value, ConversationTitle(conversation), conversation))]
  }

  /** The list sent to the model: the system prompt, then every message of
      the conversation, in order, without timestamps. */
  function OutboundMessages(conversation: seq<Message>): (out: seq<OutMessage>)
    ensures |out| == |conversation| + 1
    ensures out[0] == OutMessage("system", SystemPrompt)
    ensures forall i :: 0 <= i < |conversation| ==>
      out[i + 1] == OutMessage(conversation[i].role, conversation[i].content)
  {
    [OutMessage("system", SystemPrompt)]
      + seq(|conversation|, i requires 0 <= i < |conversation| => OutMessage(conversation[i].role, conversation[i].content))
  }

  /** The assistant message `showErrorMessage` appends for an error text. */
  function ErrorText(error: string): (text: string)
    ensures |text| == |error| + 55
    ensures text[..14] == "⚠️ **Error**: "
    ensures text[14..14 + |error|] == error
    ensures text[14 + |error|..] == "\n\nRetry or refresh if the issue persists."
  {
    "⚠️ **Error**: " + error + "\n\nRetry or refresh if the issue persists."
  }

  /** What the assistant says once the model request has ended. */
  function ReplyContent(outcome: ReplyOutcome): string
  {
    match outcome
    case Replied(content) => content
    case ReplyRefused(error) =>
      if error.Some? && error.value != "" then ErrorText(error.value)
      else ErrorText("Failed to get response from AI")
    case ReplyThrew(message) => ErrorText("Network error: " + message)
  }

  class PromptGeneratorState {
    var conversation: seq<Message>
    var isConversationActive: bool
    var currentConversationId: Option<string>
    /** The browser-stored id of the last active conversation. */
    var storedId: Option<string>
    /** Every request sent to the server so far. */
    var requests: seq<Request>

    /** A session is active exactly when it has an id, and an empty
        conversation is never active. */
    predicate Valid()
      reads this
    {
      && (isConversationActive <==> currentConversationId.Some?)
      && (conversation == [] ==> !isConversationActive)
    }

    /** The state on page load: nothing open, the stored id as found. */
    constructor (stored: Option<string>)
      ensures Valid()
      ensures conversation == [] && !isConversationActive && currentConversationId == None
      ensures storedId == stored && requests == []
    {
      conversation := [];
      isConversationActive := false;
      currentConversationId := None;
      storedId := stored;
      requests := [];
    }

    /** Open a fresh conversation under a new id, greet and save it. */
    method StartNewConversation(freshId: string, stamp: nat)
      requires freshId != ""
      modifies this
      ensures Valid()
      ensures conversation == [Message("assistant", Greeting, stamp)]
      ensures isConversationActive && currentConversationId == Some(freshId)
      ensures storedId == Some(freshId)
      ensures requests == old(requests) + [SaveConv(SaveRequest(freshId, DefaultTitle, conversation))]
    {
      conversation := [];
      isConversationActive := true;
      currentConversationId := Some(freshId);
      storedId := Some(freshId);
      conversation := conversation + [Message("assistant", Greeting, stamp)];
      TitleWithoutUser(conversation);
      SaveConversation();
    }

    /** Drop the current conversation and forget the stored id. */
    method ClearConversation()
      modifies this
      ensures Valid()
      ensures conversation == [] && !isConversationActive && currentConversationId == None
      ensures storedId == None && requests == old(requests)
    {
      conversation := [];
      isConversationActive := false;
      currentConversationId := None;
      storedId := None;
    }

    /** Send the current conversation, with its derived title, to the
        server, unless there is no id or nothing to save. */
    method SaveConversation()
      modifies this
      ensures requests == old(requests) + SavePayload(currentConversationId, conversation)
      ensures conversation == old(conversation) && isConversationActive == old(isConversationActive)
      ensures currentConversationId == old(currentConversationId) && storedId == old(storedId)
    {
      requests := requests + SavePayload(currentConversationId, conversation);
    }

    /** Re-render after a change: an empty conversation resets the session. */
    method RenderConversation()
      modifies this
      ensures old(conversation) == [] ==>
        conversation == [] && !isConversationActive && currentConversationId == None && storedId == None
      ensures old(conversation) != [] ==>
        conversation == old(conversation) && isConversationActive == old(isConversationActive)
        && currentConversationId == old(currentConversationId) && storedId == old(storedId)
      ensures requests == old(requests)
    {
      if conversation == [] {
        ClearConversation();
      }
    }

    /** Fetch conversation `id` and make it current. A loaded conversation
        without messages renders as empty and so resets the session, though
        the load still counts as a success. */
    method LoadConversation(id: string, outcome: LoadOutcome) returns (ok: bool)
      requires Valid()
      modifies this
      ensures Valid()
      ensures ok <==> outcome.LoadOk?
      ensures requests == old(requests) + [LoadConv(id)]
      ensures !ok ==> (conversation == old(conversation) && isConversationActive == old(isConversationActive)
        && currentConversationId == old(currentConversationId) && storedId == old(storedId))
      ensures ok && outcome.messages.GetOr([]) != [] ==>
        conversation == outcome.messages.value && isConversationActive
        && currentConversationId == Some(id) && storedId == old(storedId)
      ensures ok && outcome.messages.GetOr([]) == [] ==>
        conversation == [] && !isConversationActive && currentConversationId == None && storedId == None
    {
      requests := requests + [LoadConv(id)];
      if outcome.LoadOk? {
        conversation := outcome.messages.GetOr([]);
        currentConversationId := Some(id);
        isConversationActive := true;
        RenderConversation();
        ok := true;
      } else {
        ok := false;
      }
    }

    /** On page load, resume the conversation whose id is stored; without a
        stored id, or when that load fails, show an empty session. */
    method LoadLastConversation(outcome: LoadOutcome)
      requires Valid()
      modifies this
      ensures Valid()
      ensures old(storedId).None? || old(storedId).value == "" ==>
        conversation == [] && !isConversationActive && currentConversationId == None
        && storedId == None && requests == old(requests)
      ensures old(storedId).Some? && old(storedId).value != "" ==>
        requests == old(requests) + [LoadConv(old(storedId).value)]
      ensures old(storedId).Some? && old(storedId).value != "" && outcome.LoadOk? && outcome.messages.GetOr([]) != [] ==>
        conversation == outcome.messages.value && isConversationActive
        && currentConversationId == old(storedId) && storedId == old(storedId)
      ensures !outcome.LoadOk? || outcome.messages.GetOr([]) == [] ==>
        conversation == [] && !isConversationActive && currentConversationId == None && storedId == None
    {
      if storedId.Some? && storedId.value != "" {
        var loaded := LoadConversation(storedId.value, outcome);
        if loaded {
          return;
        }
      }
      ClearConversation();
    }

    /** The synchronous half of `sendMessage`: append the trimmed input as a
        user message, save, and issue the model request. Input that trims
        to nothing changes nothing. No active session is required. */
    method SendMessage(input: string, stamp: nat) returns (sent: bool)
      modifies this
      ensures sent <==> Trim(input) != []
      ensures !sent ==> conversation == old(conversation) && requests == old(requests)
      ensures sent ==> conversation == old(conversation) + [Message("user", Trim(input), stamp)]
      ensures sent ==> (requests == old(requests) + SavePayload(currentConversationId, conversation)
        + [Engineer(OutboundMessages(conversation), "o3", 0.7)])
      ensures isConversationActive == old(isConversationActive)
      ensures currentConversationId == old(currentConversationId) && storedId == old(storedId)
    {
      var message := Trim(input);
      sent := message != [];
      if sent {
        PostUserMessage(message, stamp);
      }
    }

    /** Append a user message, save, and ask the model for a reply. */
    method PostUserMessage(message: string, stamp: nat)
      modifies this
      ensures conversation == old(conversation) + [Message("user", message, stamp)]
      ensures requests == old(requests) + SavePayload(currentConversationId, conversation)
        + [Engineer(OutboundMessages(conversation), "o3", 0.7)]
      ensures isConversationActive == old(isConversationActive)
      ensures currentConversationId == old(currentConversationId) && storedId == old(storedId)
    {
      conversation := conversation + [Message("user", message, stamp)];
      RenderConversation();
      SaveConversation();
      requests := requests + [Engineer(OutboundMessages(conversation), "o3", 0.7)];
    }

    /** The half of `sendMessage` after the model request ends: exactly one
        assistant message is appended; only a reply is saved. */
    method ReceiveReply(outcome: ReplyOutcome, stamp: nat)
      modifies this
      ensures conversation == old(conversation) + [Message("assistant", ReplyContent(outcome), stamp)]
      ensures outcome.Replied? ==> requests == old(requests) + SavePayload(currentConversationId, conversation)
      ensures !outcome.Replied? ==> requests == old(requests)
      ensures isConversationActive == old(isConversationActive)
      ensures currentConversationId == old(currentConversationId) && storedId == old(storedId)
    {
      match outcome {
        case Replied(content) =>
          conversation := conversation + [Message("assistant", content, stamp)];
          RenderConversation();
          SaveConversation();
        case ReplyRefused(error) =>
          if error.Some? && error.value != "" {
            ShowErrorMessage(error.value, stamp);
          } else {
            ShowErrorMessage("Failed to get response from AI", stamp);
          }
        case ReplyThrew(message) =>
          ShowErrorMessage("Network error: " + message, stamp);
      }
    }

    /** Append an assistant error message; nothing is saved. */
    method ShowErrorMessage(error: string, stamp: nat)
      modifies this
      ensures conversation == old(conversation) + [Message("assistant", ErrorText(error), stamp)]
      ensures requests == old(requests)
      ensures isConversationActive == old(isConversationActive)
      ensures currentConversationId == old(currentConversationId) && storedId == old(storedId)
    {
      conversation := conversation + [Message("assistant", ErrorText(error), stamp)];
      RenderConversation();
    }

    /** Switch to a conversation picked from the history list. The stored id
        is written and the history list re-fetched only after a successful
        load; a failed load leaves the session as it was plus an error
        message. */
    method LoadHistoryConversation(id: string, outcome: LoadOutcome, stamp: nat)
      requires Valid()
      modifies this
      ensures Valid()
      ensures outcome.LoadOk? ==> requests == old(requests) + [LoadConv(id), ListConvs]
      ensures !outcome.LoadOk? ==> requests == old(requests) + [LoadConv(id)]
      ensures outcome.LoadOk? ==> storedId == Some(id)
      ensures outcome.LoadOk? && outcome.messages.GetOr([]) != [] ==>
        conversation == outcome.messages.value && isConversationActive && currentConversationId == Some(id)
      ensures outcome.LoadOk? && outcome.messages.GetOr([]) == [] ==>
        conversation == [] && !isConversationActive && currentConversationId == None
      ensures !outcome.LoadOk? ==>
        conversation == old(conversation) + [Message("assistant", ErrorText("Failed to load conversation"), stamp)]
        && isConversationActive == old(isConversationActive)
        && currentConversationId == old(currentConversationId) && storedId == old(storedId)
    {
      var success := LoadConversation(id, outcome);
      if success {
        storedId := Some(id);
        requests := requests + [ListConvs];
      } else {
        ShowErrorMessage("Failed to load conversation", stamp);
      }
    }

    /** Delete a conversation from the history list after confirmation; the
        session is reset only when the deleted id is the current one, and
        the history list is re-fetched after a successful delete. */
    method DeleteHistoryConversation(id: string, confirmed: bool, outcome: DeleteOutcome, stamp: nat)
      requires Valid()
      modifies this
      ensures Valid()
      ensures !confirmed ==> (conversation == old(conversation) && requests == old(requests)
        && currentConversationId == old(currentConversationId) && storedId == old(storedId))
      ensures confirmed && outcome.Deleted? ==> requests == old(requests) + [DeleteConv(id), ListConvs]
      ensures confirmed && !outcome.Deleted? ==> requests == old(requests) + [DeleteConv(id)]
      ensures confirmed && outcome.Deleted? && old(currentConversationId) == Some(id) ==>
        conversation == [] && currentConversationId == None && storedId == None
      ensures confirmed && outcome.Deleted? && old(currentConversationId) != Some(id) ==>
        conversation == old(conversation) && currentConversationId == old(currentConversationId)
        && storedId == old(storedId)
      ensures confirmed && outcome.DeleteRefused? ==>
        conversation == old(conversation) + [Message("assistant", ErrorText("Failed to delete conversation"), stamp)]
        && currentConversationId == old(currentConversationId) && storedId == old(storedId)
      ensures confirmed && outcome.DeleteThrew? ==>
        conversation == old(conversation) + [Message("assistant", ErrorText("Error deleting conversation"), stamp)]
        && currentConversationId == old(currentConversationId) && storedId == old(storedId)
    {
      if !confirmed {
        return;
      }
      requests := requests + [DeleteConv(id)];
      match outcome {
        case Deleted =>
          if currentConversationId == Some(id) {
            ClearConversation();
          }
          requests := requests + [ListConvs];
        case DeleteRefused =>
          ShowErrorMessage("Failed to delete conversation", stamp);
        case DeleteThrew =>
          ShowErrorMessage("Error deleting conversation", stamp);
      }
    }
  }
}
