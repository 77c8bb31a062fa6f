/** The records of a chat: the stored message log of `APP_STATE.chats[id]`,
    the model-facing `conversationHistory` turns, and the two projections
    between them used by `loadChat` and by the tool-call bookkeeping. */
module Chat {
  import opened Wrappers
  import opened Json

  /** The `role` values `saveMessageToChat` is called with. */
  datatype Role = User | Assistant | PromptOptions | Survey | PromptUpdate | FinalPrompt

  /** A record's `content`. `Encoded(v)` is the text `JSON.stringify(v)`;
      `Plain(v)` is any other value stored as is (normally a string);
      `Undefined` is a missing value (an option without a `prompt`). */
  datatype Content = Undefined | Plain(value: Json) | Encoded(payload: Json)

  /** `JSON.parse(content)`: succeeds on encoded payloads only; `None` is the
      exception the callers catch. */
  function Parse(c: Content): Option<Json>
  {
    if c.Encoded? then Some(c.payload) else None
  }

  /** `{role, content, timestamp}` as pushed by `saveMessageToChat`. */
  datatype StoredMessage = StoredMessage(role: Role, content: Content, timestamp: nat)

  /** `{id, title, messages, createdAt, selectedService}`. */
  datatype ChatRecord = ChatRecord(
    id: string,
    title: string,
    messages: seq<StoredMessage>,
    createdAt: nat,
    selectedService: string)

  /** One entry of a model response's `tool_calls`: its `id`,
      `function.name` and the `function.arguments` text. */
  datatype ToolCall = ToolCall(id: string, name: string, arguments: Content)

  /** An entry of `APP_STATE.conversationHistory`:
      `{role, content}`, `{role: 'assistant', content: null, tool_calls}` or
      `{role: 'tool', content, tool_call_id}`. */
  datatype Turn =
    | Said(role: Role, content: Content)
    | ToolRequest(calls: seq<ToolCall>)
    | ToolResult(content: Content, toolCallId: string)

  predicate IsConversational(r: Role)
  {
    r == User || r == Assistant
  }

  /** The history `loadChat` rebuilds from a stored log:
      `messages.filter(user or assistant).map({role, content})`. */
  function HistoryOf(ms: seq<StoredMessage>): (h: seq<Turn>)
    ensures |h| <= |ms|
    ensures forall k :: 0 <= k < |h| ==> h[k].Said? && IsConversational(h[k].role)
  {
    if ms == [] then []
    else
      var m := ms[|ms| - 1];
      HistoryOf(ms[..|ms| - 1]) + (if IsConversational(m.role) then [Said(m.role, m.content)] else [])
  }

  /** Number of user and assistant records in a log. */
  function CountConversational(ms: seq<StoredMessage>): nat
  {
    if ms == [] then 0
    else CountConversational(ms[..|ms| - 1]) + (if IsConversational(ms[|ms| - 1].role) then 1 else 0)
  }

  /** The projection distributes over concatenation of logs. */
  lemma {:induction false} HistoryOfAppend(a: seq<StoredMessage>, b: seq<StoredMessage>)
    ensures HistoryOf(a + b) == HistoryOf(a) + HistoryOf(b)
  {
    if b == [] {
      assert a + b == a;
    } else {
      var b' := b[..|b| - 1];
      assert (a + b)[..|a + b| - 1] == a + b';
      HistoryOfAppend(a, b');
    }
  }

  lemma {:induction false} HistoryOfLength(ms: seq<StoredMessage>)
    ensures |HistoryOf(ms)| == CountConversational(ms)
  {
    if ms != [] {
      HistoryOfLength(ms[..|ms| - 1]);
    }
  }

  /** `loadChat` keeps exactly the user and assistant records, in their
      original order: the history has one turn per such record, and the
      record at index `i` becomes turn number "user/assistant records before
      `i`", carrying the same role and content. */
  lemma HistoryOfSelects(ms: seq<StoredMessage>, i: nat)
    requires i < |ms| && IsConversational(ms[i].role)
    ensures |HistoryOf(ms)| == CountConversational(ms)
    ensures CountConversational(ms[..i]) < |HistoryOf(ms)|
    ensures HistoryOf(ms)[CountConversational(ms[..i])] == Said(ms[i].role, ms[i].content)
  {
    HistoryOfLength(ms);
    HistoryOfLength(ms[..i]);
    assert ms == ms[..i] + ([ms[i]] + ms[i + 1..]);
    HistoryOfAppend(ms[..i], [ms[i]] + ms[i + 1..]);
    HistoryOfAppend([ms[i]], ms[i + 1..]);
    assert HistoryOf([ms[i]]) == [Said(ms[i].role, ms[i].content)] by {
      assert [ms[i]][..0] == [];
    }
  }

  /** Rewriting the content of a widget record (any role other than user
      and assistant) does not change the rebuilt history. */
  lemma HistoryIgnoresWidgetEdit(ms: seq<StoredMessage>, i: nat, c: Content)
    requires i < |ms| && !IsConversational(ms[i].role)
    ensures HistoryOf(ms[i := ms[i].(content := c)]) == HistoryOf(ms)
  {
    var ms' := ms[i := ms[i].(content := c)];
    assert ms == ms[..i] + ([ms[i]] + ms[i + 1..]);
    assert ms' == ms[..i] + ([ms'[i]] + ms[i + 1..]);
    HistoryOfAppend(ms[..i], [ms[i]] + ms[i + 1..]);
    HistoryOfAppend([ms[i]], ms[i + 1..]);
    HistoryOfAppend(ms[..i], [ms'[i]] + ms[i + 1..]);
    HistoryOfAppend([ms'[i]], ms[i + 1..]);
    assert [ms[i]][..0] == [] && [ms'[i]][..0] == [];
  }

  /** Saving one record extends the rebuilt history by that record's turn
      exactly when it is a user or assistant record. */
  lemma HistoryOfPush(ms: seq<StoredMessage>, m: StoredMessage)
    ensures HistoryOf(ms + [m]) == HistoryOf(ms) + (if IsConversational(m.role) then [Said(m.role, m.content)] else [])
  {
    assert (ms + [m])[..|ms|] == ms;
  }

  /** The history with its tool-call turns removed: what survives of it in
      the stored log. */
  function Conversation(h: seq<Turn>): (r: seq<Turn>)
    ensures |r| <= |h|
  {
    if h == [] then []
    else Conversation(h[..|h| - 1]) + (if h[|h| - 1].Said? then [h[|h| - 1]] else [])
  }

  lemma {:induction false} ConversationAppend(a: seq<Turn>, b: seq<Turn>)
    ensures Conversation(a + b) == Conversation(a) + Conversation(b)
  {
    if b == [] {
      assert a + b == a;
    } else {
      var b' := b[..|b| - 1];
      assert (a + b)[..|a + b| - 1] == a + b';
      ConversationAppend(a, b');
    }
  }

  lemma ConversationPush(h: seq<Turn>, t: Turn)
    ensures Conversation(h + [t]) == Conversation(h) + (if t.Said? then [t] else [])
  {
    assert (h + [t])[..|h|] == h;
  }

  /** A rebuilt history holds no tool-call turns: tool requests and results
      are never written to the chat log, so `loadChat` cannot restore them. */
  lemma {:induction false} ConversationOfHistory(ms: seq<StoredMessage>)
    ensures Conversation(HistoryOf(ms)) == HistoryOf(ms)
  {
    if ms != [] {
      var m := ms[|ms| - 1];
      var tail := if IsConversational(m.role) then [Said(m.role, m.content)] else [];
      ConversationOfHistory(ms[..|ms| - 1]);
      ConversationAppend(HistoryOf(ms[..|ms| - 1]), tail);
      assert tail != [] ==> tail[..0] == [];
    }
  }

  /** Index of the first record with the given timestamp and role:
      `messages.find(msg => msg.timestamp === t && msg.role === role)`. */
  function FirstMatch(ms: seq<StoredMessage>, t: nat, role: Role): (r: Option<nat>)
    ensures r.Some? ==> r.value < |ms| && ms[r.value].timestamp == t && ms[r.value].role == role
    ensures r.Some? ==> forall j :: 0 <= j < r.value ==> !(ms[j].timestamp == t && ms[j].role == role)
    ensures r.None? ==> forall j :: 0 <= j < |ms| ==> !(ms[j].timestamp == t && ms[j].role == role)
  {
    if ms == [] then None
    else if ms[0].timestamp == t && ms[0].role == role then Some(0)
    else match FirstMatch(ms[1..], t, role)
      case None => None
      case Some(k) => Some(k + 1)
  }

  /** A tool request declares a call with this id. */
  predicate Declares(t: Turn, id: string)
  {
    t.ToolRequest? && exists k :: 0 <= k < |t.calls| && t.calls[k].id == id
  }

  /** Every tool result follows a tool request that declared its id. */
  ghost predicate ResultsFollowRequests(h: seq<Turn>)
  {
    forall i :: 0 <= i < |h| && h[i].ToolResult? ==> i > 0 && Declares(h[i - 1], h[i].toolCallId)
  }

  /** The exchange `handleFunctionCalls` appends (the request, the one result
      keyed by the first call's id, then plain turns) keeps every result
      paired with the request before it. */
  lemma ExchangeKeepsPairing(h: seq<Turn>, calls: seq<ToolCall>, c: Content, tail: seq<Turn>)
    requires ResultsFollowRequests(h)
    requires |calls| > 0
    requires forall k :: 0 <= k < |tail| ==> tail[k].Said?
    ensures ResultsFollowRequests(h + [ToolRequest(calls)])
    ensures ResultsFollowRequests(h + [ToolRequest(calls), ToolResult(c, calls[0].id)] + tail)
  {
    var h1 := h + [ToolRequest(calls)];
    forall i | 0 <= i < |h1| && h1[i].ToolResult?
      ensures i > 0 && Declares(h1[i - 1], h1[i].toolCallId)
    {
      assert h1[i] == h[i] && h1[i - 1] == h[i - 1];
    }
    var h2 := h + [ToolRequest(calls), ToolResult(c, calls[0].id)] + tail;
    assert forall j :: |h| + 2 <= j < |h2| ==> h2[j] == tail[j - |h| - 2];
    forall i | 0 <= i < |h2| && h2[i].ToolResult?
      ensures i > 0 && Declares(h2[i - 1], h2[i].toolCallId)
    {
      if i < |h| {
        assert h2[i] == h[i] && h2[i - 1] == h[i - 1];
      } else {
        assert i == |h| + 1;
        assert h2[i - 1].calls[0].id == h2[i].toolCallId;
      }
    }
  }
}
