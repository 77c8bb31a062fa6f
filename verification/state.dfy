/** `APP_STATE` as the conversation code changes it, as pure transitions:
    each function takes the state before an operation of app.js and gives the
    state after it. The `App` class in app.dfy performs the same operations
    in place and is proved equal to these functions. */
module AppState {
  import opened Wrappers
  import opened Text
  import opened Json
  import opened Chat
  import PromptOptions
  import Survey
  import Replay

  const NewChatTitle: string := "새 대화"
  const DefaultService: string := "chatgpt"

  /** `currentChatId`, `chats` (with `order`, the insertion order of its
      keys), `conversationHistory`, `stored` (the chats as last written by
      `StorageManager.saveChats`) and `service` (the value of the service
      dropdown, which `saveMessageToChat` and `showFinalPrompt` read). */
  datatype State = State(
    currentChatId: Option<string>,
    chats: map<string, ChatRecord>,
    order: seq<string>,
    history: seq<Turn>,
    stored: map<string, ChatRecord>,
    service: string)

  /** `order` lists every chat key exactly once. */
  ghost predicate Keyed(s: State)
  {
    (forall i :: 0 <= i < |s.order| ==> s.order[i] in s.chats) &&
    (forall id :: id in s.chats ==> id in s.order) &&
    (forall i, j :: 0 <= i < j < |s.order| ==> s.order[i] != s.order[j])
  }

  /** `saveMessageToChat` finds a chat to write to. */
  predicate CanSave(s: State)
  {
    s.currentChatId.Some? && s.currentChatId.value in s.chats
  }

  function Current(s: State): ChatRecord
    requires CanSave(s)
  {
    s.chats[s.currentChatId.value]
  }

  /** The conversation invariant: a chat is open, and the history sent to
      the model, once its tool-call turns are set aside, is exactly what
      `loadChat` would rebuild from that chat's log. */
  ghost predicate InSync(s: State)
  {
    CanSave(s) && Conversation(s.history) == HistoryOf(Current(s).messages)
  }

  /** `saveMessageToChat(role, content)` at time `now`: appends one record to
      the current chat, records the dropdown's service on it and saves all
      chats; with no current chat it changes nothing. */
  function Save(s: State, role: Role, content: Content, now: nat): (r: State)
    ensures !CanSave(s) ==> r == s
    ensures CanSave(s) ==> (CanSave(r) && r.currentChatId == s.currentChatId &&
      Current(r).messages == Current(s).messages + [StoredMessage(role, content, now)] &&
      Current(r).selectedService == s.service &&
      Current(r).(messages := [], selectedService := "") == Current(s).(messages := [], selectedService := ""))
    ensures CanSave(s) ==> r.stored == r.chats
    ensures r.chats.Keys == s.chats.Keys && r.order == s.order
    ensures forall id :: id in s.chats && Some(id) != s.currentChatId ==> r.chats[id] == s.chats[id]
    ensures r.history == s.history && r.service == s.service
  {
    if !CanSave(s) then s
    else
      var id := s.currentChatId.value;
      var chat := s.chats[id];
      var chats := s.chats[id := chat.(messages := chat.messages + [StoredMessage(role, content, now)], selectedService := s.service)];
      s.(chats := chats, stored := chats)
  }

  /** A user or assistant message: saved to the log and pushed on the
      history as `{role, content}`. */
  function Say(s: State, role: Role, content: Content, now: nat): State
  {
    var s1 := Save(s, role, content, now);
    s1.(history := s1.history + [Said(role, content)])
  }

  /** Saving a widget record keeps the history in step with the log. */
  lemma WidgetSaveKeepsSync(s: State, role: Role, content: Content, now: nat)
    requires InSync(s) && !IsConversational(role)
    ensures InSync(Save(s, role, content, now))
  {
    HistoryOfPush(Current(s).messages, StoredMessage(role, content, now));
  }

  /** Saving a user or assistant message and pushing the same turn keeps the
      history in step with the log. */
  lemma SayKeepsSync(s: State, role: Role, content: Content, now: nat)
    requires InSync(s) && IsConversational(role)
    ensures InSync(Say(s, role, content, now))
  {
    var s1 := Save(s, role, content, now);
    HistoryOfPush(Current(s).messages, StoredMessage(role, content, now));
    ConversationPush(s1.history, Said(role, content));
  }

  /** A tool request or tool result is pushed on the history only; the log
      never sees it, and the invariant does not either. */
  lemma ToolTurnKeepsSync(s: State, t: Turn)
    requires InSync(s) && !t.Said?
    ensures InSync(s.(history := s.history + [t]))
  {
    ConversationPush(s.history, t);
  }

  function ChatId(now: nat): string
  {
    "chat_" + NatToString(now)
  }

  /** `createNewChat()`: `Date.now()` is read twice, `now` for the id and
      `createdAt` for the record. An empty chat `chat_<now>` becomes the
      current one (replacing a chat created in the same millisecond), the
      history is emptied and all chats are saved. */
  function NewChat(s: State, now: nat, createdAt: nat): (r: State)
    ensures CanSave(r) && r.currentChatId == Some(ChatId(now))
    ensures Current(r) == ChatRecord(ChatId(now), NewChatTitle, [], createdAt, DefaultService)
    ensures r.history == [] && r.stored == r.chats && r.service == s.service
    ensures r.chats.Keys == s.chats.Keys + {ChatId(now)}
    ensures forall id :: id in s.chats && id != ChatId(now) ==> r.chats[id] == s.chats[id]
  {
    var id := ChatId(now);
    var chats := s.chats[id := ChatRecord(id, NewChatTitle, [], createdAt, DefaultService)];
    State(Some(id), chats, if id in s.chats then s.order else s.order + [id], [], chats, s.service)
  }

  lemma NewChatKeepsKeyed(s: State, now: nat, createdAt: nat)
    requires Keyed(s)
    ensures Keyed(NewChat(s, now, createdAt))
    ensures InSync(NewChat(s, now, createdAt))
  {
    var r := NewChat(s, now, createdAt);
    if ChatId(now) !in s.chats {
      forall i, j | 0 <= i < j < |r.order| ensures r.order[i] != r.order[j]
      {
        if j == |s.order| {
          assert r.order[j] == ChatId(now);
          assert r.order[i] == s.order[i];
        }
      }
    }
  }

  /** `loadChat(id)`: for a known chat, makes it current, sets the dropdown
      to its service (`chatgpt` when it has none) and rebuilds the history
      from its log; nothing is saved. An unknown id changes nothing. */
  function OpenChat(s: State, id: string): (r: State)
    ensures id !in s.chats ==> r == s
    ensures id in s.chats ==>
      r.currentChatId == Some(id) && r.chats == s.chats && r.order == s.order && r.stored == s.stored &&
      r.history == HistoryOf(s.chats[id].messages) &&
      r.service == (if s.chats[id].selectedService != "" then s.chats[id].selectedService else DefaultService)
  {
    if id !in s.chats then s
    else
      var chat := s.chats[id];
      s.(currentChatId := Some(id),
         service := if chat.selectedService != "" then chat.selectedService else DefaultService,
         history := HistoryOf(chat.messages))
  }

  /** Opening a chat puts the history in step with its log. */
  lemma OpenChatSyncs(s: State, id: string)
    requires id in s.chats
    ensures InSync(OpenChat(s, id))
  {
    ConversationOfHistory(s.chats[id].messages);
  }

  /** The record an `update*MessageState(timestamp, …)` call targets: the
      first record of the current chat with timestamp `Number(timestamp)`
      and the given role; none when the attribute is missing or empty,
      there is no current chat, or no record matches. */
  function Locate(s: State, timestamp: Option<string>, role: Role): (r: Option<nat>)
    ensures r.Some? ==> CanSave(s) && r.value < |Current(s).messages| && Current(s).messages[r.value].role == role
  {
    if timestamp.None? || timestamp.value == "" || !CanSave(s) then None
    else
      match ParseDecimal(timestamp.value)
      case None => None
      case Some(t) => FirstMatch(Current(s).messages, t, role)
  }

  /** Replaces the content of record `i` of the current chat and saves. */
  function Rewrite(s: State, i: nat, c: Content): (r: State)
    requires CanSave(s) && i < |Current(s).messages|
    ensures CanSave(r) && r.currentChatId == s.currentChatId && r.stored == r.chats
    ensures Current(r).messages == Current(s).messages[i := Current(s).messages[i].(content := c)]
    ensures Current(r).(messages := []) == Current(s).(messages := [])
    ensures r.chats.Keys == s.chats.Keys && r.order == s.order
    ensures forall id :: id in s.chats && Some(id) != s.currentChatId ==> r.chats[id] == s.chats[id]
    ensures r.history == s.history && r.service == s.service
  {
    var id := s.currentChatId.value;
    var chat := s.chats[id];
    var chats := s.chats[id := chat.(messages := chat.messages[i := chat.messages[i].(content := c)])];
    s.(chats := chats, stored := chats)
  }

  /** `updatePromptOptionsMessageState(timestamp, updates)`: the targeted
      `prompt_options` record's payload becomes `{...payload, ...updates}`;
      a missing target or an unparseable payload changes nothing. */
  function PatchChooser(s: State, timestamp: Option<string>, updates: map<string, Json>): State
  {
    match Locate(s, timestamp, PromptOptions)
    case None => s
    case Some(i) =>
      var payload := Parse(Current(s).messages[i].content);
      if payload.None? then s
      else Rewrite(s, i, Encoded(PromptOptions.Merge(payload.value, updates)))
  }

  /** `updateSurveyMessageState(timestamp, {config, state})`. */
  function PatchSurvey(s: State, timestamp: Option<string>, configPatch: Option<map<string, Json>>,
                       statePatch: Option<map<string, Json>>): State
  {
    match Locate(s, timestamp, Survey)
    case None => s
    case Some(i) =>
      var payload := Parse(Current(s).messages[i].content);
      if payload.None? then s
      else Rewrite(s, i, Encoded(Survey.MergeSurveyPayload(payload.value, configPatch, statePatch)))
  }

  /** For a widget whose attribute holds the decimal form of `t`, the patch
      rewrites exactly the first `prompt_options` record stamped `t`, as
      the shallow merge of its payload and the updates; every other record
      and every other chat is unchanged, and without such a record, or with
      an unparseable one, nothing changes at all. */
  lemma PatchChooserEffect(s: State, t: nat, updates: map<string, Json>)
    requires CanSave(s)
    ensures var r := PatchChooser(s, Some(NatToString(t)), updates);
      var ms := Current(s).messages;
      match FirstMatch(ms, t, PromptOptions)
      case None => r == s
      case Some(i) =>
        if Parse(ms[i].content).None? then r == s
        else
          CanSave(r) && r.currentChatId == s.currentChatId &&
          Current(r).messages == ms[i := ms[i].(content := Encoded(PromptOptions.Merge(Parse(ms[i].content).value, updates)))] &&
          (forall id :: id in s.chats && Some(id) != s.currentChatId ==> r.chats[id] == s.chats[id])
  {
    DecimalRoundTrip(t);
  }

  /** The same for a survey record and the two-level merge. */
  lemma PatchSurveyEffect(s: State, t: nat, configPatch: Option<map<string, Json>>, statePatch: Option<map<string, Json>>)
    requires CanSave(s)
    ensures var r := PatchSurvey(s, Some(NatToString(t)), configPatch, statePatch);
      var ms := Current(s).messages;
      match FirstMatch(ms, t, Survey)
      case None => r == s
      case Some(i) =>
        if Parse(ms[i].content).None? then r == s
        else
          CanSave(r) && r.currentChatId == s.currentChatId &&
          Current(r).messages == ms[i := ms[i].(content := Encoded(Survey.MergeSurveyPayload(Parse(ms[i].content).value, configPatch, statePatch)))] &&
          (forall id :: id in s.chats && Some(id) != s.currentChatId ==> r.chats[id] == s.chats[id])
  {
    DecimalRoundTrip(t);
  }

  /** Patching a widget record never disturbs the conversation. */
  lemma PatchesKeepSync(s: State, timestamp: Option<string>, updates: map<string, Json>,
                        configPatch: Option<map<string, Json>>, statePatch: Option<map<string, Json>>)
    requires InSync(s)
    ensures InSync(PatchChooser(s, timestamp, updates))
    ensures InSync(PatchSurvey(s, timestamp, configPatch, statePatch))
  {
    var i := Locate(s, timestamp, PromptOptions);
    if i.Some? && Parse(Current(s).messages[i.value].content).Some? {
      HistoryIgnoresWidgetEdit(Current(s).messages, i.value,
        Encoded(PromptOptions.Merge(Parse(Current(s).messages[i.value].content).value, updates)));
    }
    var j := Locate(s, timestamp, Survey);
    if j.Some? && Parse(Current(s).messages[j.value].content).Some? {
      HistoryIgnoresWidgetEdit(Current(s).messages, j.value,
        Encoded(Survey.MergeSurveyPayload(Parse(Current(s).messages[j.value].content).value, configPatch, statePatch)));
    }
  }

  /** A record a handler saves. */
  datatype Record = Record(role: Role, content: Content)

  /** What a tool handler did: it threw, or it returned `result` after
      saving at most one widget record. */
  datatype Effect = Threw | Done(saved: Option<Record>, result: Json)

  const SuggestName: string := "suggest_prompt_options"
  const UpdateName: string := "update_prompt"
  const FinalizeName: string := "finalize_prompt"
  const SurveyName: string := "request_survey"

  /** `{success: true, message}`. */
  function OkResult(message: string): Json
  {
    JObj(map["success" := JBool(true), "message" := JStr(message)])
  }

  /** `handleSuggestPromptOptions(args)`: renders and saves a chooser over
      `args.options` in its initial state. Nothing is saved when the options
      are not a non-empty array; `null` arguments or a `null` option throw. */
  function SuggestPromptOptions(args: Json): (e: Effect)
    ensures e.Threw? <==> (args.JNull? ||
      (Member(args, "options").Some? && Member(args, "options").value.JArr? &&
       exists k :: 0 <= k < |Member(args, "options").value.items| && Member(args, "options").value.items[k] == JNull))
    ensures e.Done? ==> e.result == OkResult("프롬프트 옵션을 사용자에게 표시했습니다.")
    ensures e.Done? && e.saved.Some? ==>
      e.saved.value.role == PromptOptions && Parse(e.saved.value.content).Some? &&
      PromptOptions.StateOf(Parse(e.saved.value.content).value) == PromptOptions.ChooserState(None, false, false) &&
      Member(Parse(e.saved.value.content).value, "options") == Member(args, "options")
    ensures e.Done? ==> (e.saved.Some? <==>
      Member(args, "options").Some? && Member(args, "options").value.JArr? && |Member(args, "options").value.items| > 0)
  {
    var ok := OkResult("프롬프트 옵션을 사용자에게 표시했습니다.");
    if args.JNull? then Threw
    else
      var options := Member(args, "options");
      if !(options.Some? && options.value.JArr?) then Done(None, ok)
      else if exists k :: 0 <= k < |options.value.items| && options.value.items[k] == JNull then Threw
      else if |options.value.items| == 0 then Done(None, ok)
      else
        var st := PromptOptions.ChooserState(None, false, false);
        PromptOptions.PayloadRoundTrip(options.value.items, st);
        Done(Some(Record(PromptOptions, Encoded(PromptOptions.Payload(options.value.items, st)))), ok)
  }

  /** `handleUpdatePrompt(args)`: saves `args.updated_prompt || ''` as a
      `prompt_update` record; `null` arguments throw. */
  function UpdatePrompt(args: Json): (e: Effect)
    ensures e.Threw? <==> args.JNull?
    ensures e.Done? ==> e.result == OkResult("프롬프트가 업데이트되었습니다.")
    ensures e.Done? ==> e.saved.Some? && e.saved.value.role == PromptUpdate
    ensures e.Done? && Present(Member(args, "updated_prompt")) ==>
      e.saved.value.content == Plain(Member(args, "updated_prompt").value)
    ensures e.Done? && !Present(Member(args, "updated_prompt")) ==> e.saved.value.content == Plain(JStr(""))
  {
    if args.JNull? then Threw
    else Done(Some(Record(PromptUpdate, Plain(Or(Member(args, "updated_prompt"), JStr(""))))),
              OkResult("프롬프트가 업데이트되었습니다."))
  }

  /** `handleFinalizePrompt(args)` with the dropdown at `service`: saves
      `{prompt, summary, service}` as a `final_prompt` record, the service
      being `args.service` or else the dropdown's. `null` arguments, or a
      truthy service that is not a string (`service.toUpperCase`), throw. */
  function FinalizePrompt(args: Json, service: string): (e: Effect)
    ensures e.Threw? <==> args.JNull? || (Present(Member(args, "service")) && !Member(args, "service").value.JStr?)
    ensures e.Done? ==> e.result == OkResult("프롬프트가 최종 확정되었습니다.")
    ensures e.Done? ==> e.saved.Some? && e.saved.value.role == FinalPrompt && Parse(e.saved.value.content).Some?
    ensures e.Done? ==>
      Member(Parse(e.saved.value.content).value, "service") ==
      Some(if Present(Member(args, "service")) then Member(args, "service").value else JStr(service))
    ensures e.Done? ==> Member(Parse(e.saved.value.content).value, "prompt") == Some(Or(Member(args, "final_prompt"), JStr("")))
    ensures e.Done? ==> Member(Parse(e.saved.value.content).value, "summary") == Some(Or(Member(args, "summary"), JStr("")))
  {
    if args.JNull? then Threw
    else
      var s := Or(Member(args, "service"), JStr(service));
      if !s.JStr? then Threw
      else
        var payload := map[
          "prompt" := Or(Member(args, "final_prompt"), JStr("")),
          "summary" := Or(Member(args, "summary"), JStr("")),
          "service" := s];
        Done(Some(Record(FinalPrompt, Encoded(JObj(payload)))), OkResult("프롬프트가 최종 확정되었습니다."))
  }

  /** A finalised prompt reloads as the final-prompt card with the saved
      prompt, summary and resolved service; only an empty resolved service
      falls back to the dropdown of the later reload. */
  lemma FinalizedPromptRedraws(args: Json, service: string, later: string, t: nat)
    requires FinalizePrompt(args, service).Done?
    ensures var resolved := Or(Member(args, "service"), JStr(service)).s;
      Replay.ShowFinalPrompt(StoredMessage(FinalPrompt, FinalizePrompt(args, service).saved.value.content, t), later) ==
      Replay.FinalPromptShown(Some(Or(Member(args, "final_prompt"), JStr(""))), Some(Or(Member(args, "summary"), JStr(""))),
        if resolved != "" then resolved else later)
  {
  }

  /** `handleRequestSurvey(args)` at time `now`: saves the survey built from
      the arguments in its initial state, unless it does not render (empty
      prompt, or a multiple-choice survey without options); `null`
      arguments throw. */
  function RequestSurvey(args: Json, now: nat): (e: Effect)
    ensures e.Threw? <==> args.JNull?
    ensures e.Done? ==> e.result == OkResult("설문을 사용자에게 표시했습니다.")
    ensures e.Done? ==> (e.saved.Some? <==> Survey.Renders(Survey.ConfigFromArgs(args, now), Survey.InitialState()))
    ensures e.Done? && e.saved.Some? ==>
      e.saved.value.role == Survey && Parse(e.saved.value.content).Some? &&
      Survey.NormalizeConfig(Survey.Section(Parse(e.saved.value.content).value, "config")) == Survey.ConfigFromArgs(args, now) &&
      Survey.NormalizeState(Survey.Section(Parse(e.saved.value.content).value, "state")) == Survey.InitialState()
  {
    if args.JNull? then Threw
    else
      var c := Survey.ConfigFromArgs(args, now);
      var ok := OkResult("설문을 사용자에게 표시했습니다.");
      if Survey.Renders(c, Survey.InitialState()) then
        Survey.PayloadRoundTrip(c, Survey.InitialState());
        Done(Some(Record(Survey, Encoded(Survey.Payload(c, Survey.InitialState())))), ok)
      else Done(None, ok)
  }

  /** The `switch (functionName)` of `handleFunctionCalls`: an unknown name
      runs nothing and yields `null`. */
  function Dispatch(name: string, args: Json, service: string, now: nat): (e: Effect)
    ensures name != SuggestName && name != UpdateName && name != FinalizeName && name != SurveyName ==>
      e == Done(None, JNull)
    ensures e.Done? && e.saved.Some? ==> !IsConversational(e.saved.value.role)
  {
    if name == SuggestName then SuggestPromptOptions(args)
    else if name == UpdateName then UpdatePrompt(args)
    else if name == FinalizeName then FinalizePrompt(args, service)
    else if name == SurveyName then RequestSurvey(args, now)
    else Done(None, JNull)
  }

  /** A model response as `callOpenAI` resolves it, or the error it rejects
      with. `at` is the clock reading when the response is handled. */
  datatype Reply =
    | Error(message: string)
    | Message(content: Json, toolCalls: seq<ToolCall>, at: nat)

  /** Why the catch-all error bubble was shown. */
  datatype Failure = RequestFailed(message: string) | BadArguments | HandlerFailed

  /** How a send ended: normally, aborted by a `TypeError` before anything
      was pushed (no current chat), or in `sendMessage`'s catch block. */
  datatype Outcome = Completed | Aborted | Failed(why: Failure)

  /** A plain reply: its content, if truthy, is saved and pushed as an
      assistant turn. */
  function Respond(s: State, content: Json, at: nat): State
  {
    if Truthy(content) then Say(s, Assistant, Plain(content), at) else s
  }

  /** What `handleFunctionCalls` does once a handler returned `result`
      (having saved `saved`, if anything): the tool turn keyed by `id`, then
      the follow-up reply, handled like a plain reply. */
  function FinishToolCall(s: State, saved: Option<Record>, result: Json, id: string, at: nat, followUp: Reply): (State, Outcome)
  {
    var s2 := if saved.Some? then Save(s, saved.value.role, saved.value.content, at) else s;
    var s3 := s2.(history := s2.history + [ToolResult(Encoded(result), id)]);
    match followUp
    case Error(msg) => (s3, Failed(RequestFailed(msg)))
    case Message(content, _, at2) => (Respond(s3, content, at2), Completed)
  }

  /** `handleFunctionCalls(response)` for a response whose `tool_calls` is
      `calls`: only `calls[0]` runs. Its arguments are parsed first (a
      failure pushes nothing); then the request turn is pushed, the handler
      runs, and its result is pushed as the one tool turn keyed by
      `calls[0].id` before the follow-up reply is handled. */
  function HandleToolCalls(s: State, calls: seq<ToolCall>, at: nat, followUp: Reply): (r: (State, Outcome))
    requires |calls| > 0
  {
    var call := calls[0];
    var args := Parse(call.arguments);
    if args.None? then (s, Failed(BadArguments))
    else
      var s1 := s.(history := s.history + [ToolRequest(calls)]);
      match Dispatch(call.name, args.value, s.service, at)
      case Threw => (s1, Failed(HandlerFailed))
      case Done(saved, result) => FinishToolCall(s1, saved, result, call.id, at, followUp)
  }

  /** After a handler, the history gains the tool turn and then an assistant
      turn exactly when the follow-up has truthy content. */
  lemma FinishTurns(s: State, saved: Option<Record>, result: Json, id: string, at: nat, followUp: Reply)
    ensures FinishToolCall(s, saved, result, id, at, followUp).0.history ==
      s.history + [ToolResult(Encoded(result), id)] +
      (if followUp.Message? && Truthy(followUp.content) then [Said(Assistant, Plain(followUp.content))] else [])
  {
  }

  /** The turns a tool-call exchange appends: nothing when the arguments do
      not parse; the request alone when the handler throws; otherwise the
      request, exactly one tool turn carrying the JSON of the handler's
      result (`null` for an unknown name) under the first call's id, and an
      assistant turn exactly when the follow-up reply has truthy content. */
  lemma ToolCallTurns(s: State, calls: seq<ToolCall>, at: nat, followUp: Reply)
    requires |calls| > 0
    ensures var r := HandleToolCalls(s, calls, at, followUp).0;
      var args := Parse(calls[0].arguments);
      if args.None? then r.history == s.history
      else
        match Dispatch(calls[0].name, args.value, s.service, at)
        case Threw => r.history == s.history + [ToolRequest(calls)]
        case Done(_, result) =>
          var exchange := s.history + [ToolRequest(calls), ToolResult(Encoded(result), calls[0].id)];
          if followUp.Message? && Truthy(followUp.content)
          then r.history == exchange + [Said(Assistant, Plain(followUp.content))]
          else r.history == exchange
    ensures ResultsFollowRequests(s.history) ==> ResultsFollowRequests(HandleToolCalls(s, calls, at, followUp).0.history)
  {
    var args := Parse(calls[0].arguments);
    if args.Some? {
      var e := Dispatch(calls[0].name, args.value, s.service, at);
      if e.Done? {
        var s1 := s.(history := s.history + [ToolRequest(calls)]);
        FinishTurns(s1, e.saved, e.result, calls[0].id, at, followUp);
        var exchange := s.history + [ToolRequest(calls), ToolResult(Encoded(e.result), calls[0].id)];
        assert s1.history + [ToolResult(Encoded(e.result), calls[0].id)] == exchange;
        if ResultsFollowRequests(s.history) {
          if followUp.Message? && Truthy(followUp.content) {
            ExchangeKeepsPairing(s.history, calls, Encoded(e.result), [Said(Assistant, Plain(followUp.content))]);
          } else {
            ExchangeKeepsPairing(s.history, calls, Encoded(e.result), []);
            assert exchange + [] == exchange;
          }
        }
      } else if ResultsFollowRequests(s.history) {
        ExchangeKeepsPairing(s.history, calls, Plain(JNull), []);
      }
    }
  }

  /** The steps after a handler keep the history in step, as long as the
      handler saved no user or assistant record. */
  lemma FinishKeepsSync(s: State, saved: Option<Record>, result: Json, id: string, at: nat, followUp: Reply)
    requires InSync(s) && (saved.Some? ==> !IsConversational(saved.value.role))
    ensures InSync(FinishToolCall(s, saved, result, id, at, followUp).0)
  {
    var s2 := if saved.Some? then Save(s, saved.value.role, saved.value.content, at) else s;
    if saved.Some? {
      WidgetSaveKeepsSync(s, saved.value.role, saved.value.content, at);
    }
    var s3 := s2.(history := s2.history + [ToolResult(Encoded(result), id)]);
    ToolTurnKeepsSync(s2, ToolResult(Encoded(result), id));
    if followUp.Message? && Truthy(followUp.content) {
      SayKeepsSync(s3, Assistant, Plain(followUp.content), followUp.at);
    }
  }

  lemma ToolCallsKeepSync(s: State, calls: seq<ToolCall>, at: nat, followUp: Reply)
    requires |calls| > 0 && InSync(s)
    ensures InSync(HandleToolCalls(s, calls, at, followUp).0)
  {
    var args := Parse(calls[0].arguments);
    if args.Some? {
      var s1 := s.(history := s.history + [ToolRequest(calls)]);
      ToolTurnKeepsSync(s, ToolRequest(calls));
      var e := Dispatch(calls[0].name, args.value, s.service, at);
      if e.Done? {
        FinishKeepsSync(s1, e.saved, e.result, calls[0].id, at, followUp);
      }
    }
  }

  /** What `sendMessage` does with the model's reply once the user turn is
      pushed: a failed request ends in the catch block, a tool call is
      handled, anything else is a plain reply. */
  function ReplyStep(s: State, reply: Reply, followUp: Reply): (State, Outcome)
  {
    match reply
    case Error(msg) => (s, Failed(RequestFailed(msg)))
    case Message(content, calls, at) =>
      if |calls| > 0 then HandleToolCalls(s, calls, at, followUp)
      else (Respond(s, content, at), Completed)
  }

  /** `sendMessage(text)` at time `at`, the model answering `reply` and,
      when that reply calls tools, `followUp`. */
  function Send(s: State, text: string, at: nat, reply: Reply, followUp: Reply): (r: (State, Outcome))
  {
    var s1 := Save(s, User, Plain(JStr(text)), at);
    if !CanSave(s1) then (s1, Aborted)
    else
      var id := s1.currentChatId.value;
      var chat := Current(s1);
      var s2 := if |chat.messages| == 1 then s1.(chats := s1.chats[id := chat.(title := ChatTitle(text))]) else s1;
      var s3 := s2.(history := s2.history + [Said(User, Plain(JStr(text)))]);
      ReplyStep(s3, reply, followUp)
  }

  /** With no chat to write to, sending throws before anything changes. */
  lemma SendWithoutChat(s: State, text: string, at: nat, reply: Reply, followUp: Reply)
    requires !CanSave(s)
    ensures Send(s, text, at, reply, followUp) == (s, Aborted)
  {
  }

  /** The first message of a chat names it (its first 30 characters), but
      the new title reaches storage only with the next save: when the
      request fails, the stored chat keeps its old title. */
  lemma FirstMessageTitles(s: State, text: string, at: nat, reply: Reply, followUp: Reply)
    requires CanSave(s) && Current(s).messages == []
    ensures CanSave(Send(s, text, at, reply, followUp).0)
    ensures Current(Send(s, text, at, reply, followUp).0).title == ChatTitle(text)
    ensures reply.Error? ==>
      Send(s, text, at, reply, followUp).0.stored[s.currentChatId.value].title == Current(s).title
  {
    var s1 := Save(s, User, Plain(JStr(text)), at);
    var id := s.currentChatId.value;
    var s3 := s1.(chats := s1.chats[id := Current(s1).(title := ChatTitle(text))]);
    if reply.Message? {
      if |reply.toolCalls| > 0 {
        var s4 := s3.(history := s3.history + [Said(User, Plain(JStr(text)))]);
        ToolCallsPreserveTitle(s4, reply.toolCalls, reply.at, followUp);
      }
    }
  }

  /** Nothing in a tool-call exchange renames the current chat. */
  lemma ToolCallsPreserveTitle(s: State, calls: seq<ToolCall>, at: nat, followUp: Reply)
    requires |calls| > 0 && CanSave(s)
    ensures CanSave(HandleToolCalls(s, calls, at, followUp).0)
    ensures Current(HandleToolCalls(s, calls, at, followUp).0).title == Current(s).title
  {
    var args := Parse(calls[0].arguments);
    if args.Some? {
      var e := Dispatch(calls[0].name, args.value, s.service, at);
      if e.Done? {
        FinishKeepsTitle(s.(history := s.history + [ToolRequest(calls)]), e.saved, e.result, calls[0].id, at, followUp);
      }
    }
  }

  lemma FinishKeepsTitle(s: State, saved: Option<Record>, result: Json, id: string, at: nat, followUp: Reply)
    requires CanSave(s)
    ensures CanSave(FinishToolCall(s, saved, result, id, at, followUp).0)
    ensures Current(FinishToolCall(s, saved, result, id, at, followUp).0).title == Current(s).title
  {
  }

  /** Sending keeps the history in step with the log, whatever the replies. */
  lemma SendKeepsSync(s: State, text: string, at: nat, reply: Reply, followUp: Reply)
    requires InSync(s)
    ensures InSync(Send(s, text, at, reply, followUp).0)
  {
    var s1 := Save(s, User, Plain(JStr(text)), at);
    var id := s.currentChatId.value;
    var chat := Current(s1);
    var s2 := if |chat.messages| == 1 then s1.(chats := s1.chats[id := chat.(title := ChatTitle(text))]) else s1;
    var s3 := s2.(history := s2.history + [Said(User, Plain(JStr(text)))]);
    SayKeepsSync(s, User, Plain(JStr(text)), at);
    assert InSync(s3);
    if reply.Message? {
      if |reply.toolCalls| > 0 {
        ToolCallsKeepSync(s3, reply.toolCalls, reply.at, followUp);
      } else if Truthy(reply.content) {
        SayKeepsSync(s3, Assistant, Plain(reply.content), reply.at);
      }
    }
  }

  /** What `handlePromptOptionConfirm` stores for the prompt: the option's
      `prompt`, or nothing when it has none. */
  function PromptOf(option: Json): Content
  {
    match Member(option, "prompt")
    case None => Undefined
    case Some(p) => Plain(p)
  }

  /** `handlePromptOptionConfirm(option, index, timestamp)` at time `at`:
      the synthetic user message is saved and pushed, the option's prompt is
      saved as a `prompt_update` record, and the chooser record is patched
      completed with the chosen index. */
  function Confirm(s: State, option: Json, index: int, timestamp: Option<string>, at: nat): State
  {
    var message := Plain(JStr(PromptOptions.ChoiceMessage(Member(option, "title"))));
    var s1 := Save(s, User, message, at);
    var s2 := Save(s1, PromptUpdate, PromptOf(option), at);
    var s3 := s2.(history := s2.history + [Said(User, message)]);
    PatchChooser(s3, timestamp, PromptOptions.ConfirmPatch(index))
  }

  /** Confirming adds exactly one user turn `"<title>" 옵션을 선택했습니다.`
      to the history, and to the log that turn followed by the option's
      prompt, before the chooser record is patched. */
  lemma ConfirmAppends(s: State, option: Json, index: int, t: nat, at: nat)
    requires CanSave(s)
    ensures var r := Confirm(s, option, index, Some(NatToString(t)), at);
      var message := Plain(JStr(PromptOptions.ChoiceMessage(Member(option, "title"))));
      r.history == s.history + [Said(User, message)] &&
      CanSave(r) &&
      |Current(r).messages| == |Current(s).messages| + 2 &&
      Current(r).messages[|Current(s).messages|] == StoredMessage(User, message, at) &&
      Current(r).messages[|Current(s).messages| + 1] == StoredMessage(PromptUpdate, PromptOf(option), at)
  {
    var message := Plain(JStr(PromptOptions.ChoiceMessage(Member(option, "title"))));
    var s1 := Save(s, User, message, at);
    var s2 := Save(s1, PromptUpdate, PromptOf(option), at);
    var s3 := s2.(history := s2.history + [Said(User, message)]);
    PatchChooserEffect(s3, t, PromptOptions.ConfirmPatch(index));
  }

  lemma ConfirmKeepsSync(s: State, option: Json, index: int, timestamp: Option<string>, at: nat)
    requires InSync(s)
    ensures InSync(Confirm(s, option, index, timestamp, at))
  {
    var message := Plain(JStr(PromptOptions.ChoiceMessage(Member(option, "title"))));
    var s1 := Save(s, User, message, at);
    var s2 := Save(s1, PromptUpdate, PromptOf(option), at);
    var s3 := s2.(history := s2.history + [Said(User, message)]);
    HistoryOfPush(Current(s).messages, StoredMessage(User, message, at));
    HistoryOfPush(Current(s1).messages, StoredMessage(PromptUpdate, PromptOf(option), at));
    ConversationPush(s.history, Said(User, message));
    assert InSync(s3);
    PatchesKeepSync(s3, timestamp, PromptOptions.ConfirmPatch(index), None, None);
  }

  /** `handlePromptOptionCancel(timestamp)`. */
  function Cancel(s: State, timestamp: Option<string>): State
  {
    PatchChooser(s, timestamp, PromptOptions.CancelPatch())
  }

  /** `submitSurveyResponse(config, …, answers)` at time `at`: the summary is
      rendered first (when it throws, nothing happens), the survey record is
      patched completed with the answers and `submittedAt`, then the answer
      message, when there is one, is sent. */
  function SubmitSurvey(s: State, c: Survey.SurveyConfig, timestamp: Option<string>, answers: Json,
                        at: nat, reply: Reply, followUp: Reply): (r: (State, Outcome))
  {
    if Survey.FormatSurveyAnswerSummary(answers).None? then (s, Aborted)
    else
      var s1 := PatchSurvey(s, timestamp, None, Some(Survey.CompletionPatch(answers, at)));
      match Survey.BuildSurveyAnswerMessage(c, answers)
      case None => (s1, Completed)
      case Some(text) => Send(s1, text, at, reply, followUp)
  }

  lemma SubmitSurveyKeepsSync(s: State, c: Survey.SurveyConfig, timestamp: Option<string>, answers: Json,
                              at: nat, reply: Reply, followUp: Reply)
    requires InSync(s)
    ensures InSync(SubmitSurvey(s, c, timestamp, answers, at, reply, followUp).0)
  {
    var s1 := PatchSurvey(s, timestamp, None, Some(Survey.CompletionPatch(answers, at)));
    PatchesKeepSync(s, timestamp, map[], None, Some(Survey.CompletionPatch(answers, at)));
    var m := Survey.BuildSurveyAnswerMessage(c, answers);
    if m.Some? {
      SendKeepsSync(s1, m.value, at, reply, followUp);
    }
  }
}
