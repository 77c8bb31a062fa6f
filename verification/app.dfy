/** The page as it runs: `APP_STATE` as an object whose methods update its
    fields in place, and the two interactive widgets (the prompt-options
    chooser and the survey form) with the state their closures and DOM
    nodes keep. Every method is proved to leave the application in the
    state the matching transition of `AppState` describes. */
module Page {
  import opened Wrappers
  import opened Text
  import opened Json
  import opened Chat
  import opened AppState
  import Listing
  import PromptOptions
  import Survey

  /** `messages.find(msg => msg.timestamp === t && msg.role === role)`, as
      the index of the record found. */
  method FindRecord(ms: seq<StoredMessage>, t: nat, role: Role) returns (r: Option<nat>)
    ensures r == FirstMatch(ms, t, role)
  {
    var i := 0;
    while i < |ms|
      invariant 0 <= i <= |ms|
      invariant forall j :: 0 <= j < i ==> !(ms[j].timestamp == t && ms[j].role == role)
    {
      if ms[i].timestamp == t && ms[i].role == role {
        return Some(i);
      }
      i := i + 1;
    }
    return None;
  }

  /** One entry of the sidebar: the chat it opens, its title, and whether
      it is marked active. */
  datatype SidebarItem = SidebarItem(id: string, title: string, active: bool)

  /** The `forEach` of `renderChatHistory` over the sorted ids. */
  method SidebarItems(ids: seq<string>, chats: map<string, ChatRecord>, current: Option<string>)
    returns (items: seq<SidebarItem>)
    requires forall k :: 0 <= k < |ids| ==> ids[k] in chats
    ensures |items| == |ids|
    ensures forall k :: 0 <= k < |items| ==>
      items[k].id == ids[k] && items[k].title == chats[ids[k]].title && (items[k].active <==> Some(ids[k]) == current)
  {
    items := [];
    var k := 0;
    while k < |ids|
      invariant 0 <= k <= |ids|
      invariant |items| == k
      invariant forall j :: 0 <= j < k ==>
        items[j].id == ids[j] && items[j].title == chats[ids[j]].title && (items[j].active <==> Some(ids[j]) == current)
    {
      var id := ids[k];
      items := items + [SidebarItem(id, chats[id].title, Some(id) == current)];
      k := k + 1;
    }
  }

  class App {
    var currentChatId: Option<string>
    var chats: map<string, ChatRecord>
    var order: seq<string>
    var conversationHistory: seq<Turn>
    var stored: map<string, ChatRecord>
    var service: string

    ghost function Snapshot(): State
      reads this
    {
      State(currentChatId, chats, order, conversationHistory, stored, service)
    }

    ghost predicate Valid()
      reads this
    {
      Keyed(Snapshot())
    }

    /** `init()`: the chats loaded from storage (in their stored key order),
        no chat open yet, the dropdown at `selected`. */
    constructor (saved: map<string, ChatRecord>, savedOrder: seq<string>, selected: string)
      requires Keyed(State(None, saved, savedOrder, [], saved, selected))
      ensures Valid() && Snapshot() == State(None, saved, savedOrder, [], saved, selected)
    {
      currentChatId := None;
      chats := saved;
      order := savedOrder;
      conversationHistory := [];
      stored := saved;
      service := selected;
    }

    /** The user picks another target service in the dropdown. */
    method ChooseService(value: string)
      modifies this
      ensures Snapshot() == old(Snapshot()).(service := value)
    {
      service := value;
    }

    /** `saveMessageToChat(role, content)` at time `now`. */
    method SaveMessageToChat(role: Role, content: Content, now: nat) returns (saved: Option<StoredMessage>)
      requires Valid()
      modifies this
      ensures Valid()
      ensures Snapshot() == Save(old(Snapshot()), role, content, now)
      ensures saved == if CanSave(old(Snapshot())) then Some(StoredMessage(role, content, now)) else None
    {
      if currentChatId.None? {
        return None;
      }
      var id := currentChatId.value;
      if id !in chats {
        return None;
      }
      var chat := chats[id];
      var record := StoredMessage(role, content, now);
      chat := chat.(messages := chat.messages + [record]);
      chat := chat.(selectedService := service);
      chats := chats[id := chat];
      stored := chats;
      saved := Some(record);
    }

    /** `createNewChat()`, with the two clock readings it takes. */
    method CreateNewChat(now: nat, createdAt: nat)
      requires Valid()
      modifies this
      ensures Valid() && InSync(Snapshot())
      ensures Snapshot() == NewChat(old(Snapshot()), now, createdAt)
    {
      NewChatKeepsKeyed(Snapshot(), now, createdAt);
      var id := ChatId(now);
      currentChatId := Some(id);
      if id !in chats {
        order := order + [id];
      }
      chats := chats[id := ChatRecord(id, NewChatTitle, [], createdAt, DefaultService)];
      conversationHistory := [];
      stored := chats;
    }

    /** `loadChat(id)`, the bookkeeping part (what it redraws is
        `Replay.Replay`). */
    method LoadChat(id: string)
      requires Valid()
      modifies this
      ensures Valid()
      ensures Snapshot() == OpenChat(old(Snapshot()), id)
      ensures id in old(chats) ==> InSync(Snapshot())
    {
      if id !in chats {
        return;
      }
      OpenChatSyncs(Snapshot(), id);
      var chat := chats[id];
      currentChatId := Some(id);
      service := if chat.selectedService != "" then chat.selectedService else DefaultService;
      conversationHistory := HistoryOf(chat.messages);
    }

    /** `renderChatHistory()`: one sidebar entry per chat, newest first,
        the current chat marked active. */
    method RenderChatHistory() returns (items: seq<SidebarItem>)
      requires Valid()
      ensures var ids := Listing.SortNewestFirst(order, chats);
        |items| == |ids| &&
        forall k :: 0 <= k < |items| ==>
          items[k].id == ids[k] && items[k].title == chats[ids[k]].title &&
          (items[k].active <==> Some(ids[k]) == currentChatId)
    {
      var ids := Listing.SortNewestFirst(order, chats);
      items := SidebarItems(ids, chats, currentChatId);
    }

    /** `sendMessage(text)` at time `at`; `reply` is what the model answers,
        `followUp` what it answers after a tool call. */
    method SendMessage(text: string, at: nat, reply: Reply, followUp: Reply) returns (outcome: Outcome)
      requires Valid()
      modifies this
      ensures Valid()
      ensures (Snapshot(), outcome) == Send(old(Snapshot()), text, at, reply, followUp)
    {
      var _ := SaveMessageToChat(User, Plain(JStr(text)), at);
      if currentChatId.None? || currentChatId.value !in chats {
        return Aborted;
      }
      var id := currentChatId.value;
      var chat := chats[id];
      if |chat.messages| == 1 {
        chats := chats[id := chat.(title := ChatTitle(text))];
      }
      conversationHistory := conversationHistory + [Said(User, Plain(JStr(text)))];
      outcome := ReceiveReply(reply, followUp);
    }

    /** The `try` block of `sendMessage`, once the user turn is pushed. */
    method ReceiveReply(reply: Reply, followUp: Reply) returns (outcome: Outcome)
      requires Valid()
      modifies this
      ensures Valid()
      ensures (Snapshot(), outcome) == ReplyStep(old(Snapshot()), reply, followUp)
    {
      match reply {
        case Error(msg) =>
          outcome := Failed(RequestFailed(msg));
        case Message(content, calls, at) =>
          if |calls| > 0 {
            outcome := HandleFunctionCalls(calls, at, followUp);
          } else {
            if Truthy(content) {
              var _ := SaveMessageToChat(Assistant, Plain(content), at);
              conversationHistory := conversationHistory + [Said(Assistant, Plain(content))];
            }
            outcome := Completed;
          }
      }
    }

    /** `handleSendMessage`: the input box's text is trimmed; blank input,
        or no API key, sends nothing. */
    method HandleSendMessage(input: string, hasApiKey: bool, at: nat, reply: Reply, followUp: Reply)
      returns (outcome: Option<Outcome>)
      requires Valid()
      modifies this
      ensures Valid()
      ensures outcome.None? <==> Trim(input) == "" || !hasApiKey
      ensures outcome.None? ==> Snapshot() == old(Snapshot())
      ensures outcome.Some? ==> (Snapshot(), outcome.value) == Send(old(Snapshot()), Trim(input), at, reply, followUp)
    {
      var message := Trim(input);
      if message == "" || !hasApiKey {
        return None;
      }
      var o := SendMessage(message, at, reply, followUp);
      outcome := Some(o);
    }

    /** `handleFunctionCalls(response)` for a response calling `calls`. */
    method HandleFunctionCalls(calls: seq<ToolCall>, at: nat, followUp: Reply) returns (outcome: Outcome)
      requires Valid() && |calls| > 0
      modifies this
      ensures Valid()
      ensures (Snapshot(), outcome) == HandleToolCalls(old(Snapshot()), calls, at, followUp)
    {
      var call := calls[0];
      var args := Parse(call.arguments);
      if args.None? {
        return Failed(BadArguments);
      }
      conversationHistory := conversationHistory + [ToolRequest(calls)];
      var effect := Dispatch(call.name, args.value, service, at);
      match effect {
        case Threw =>
          outcome := Failed(HandlerFailed);
        case Done(saved, result) =>
          outcome := FinishToolCall(saved, result, call.id, at, followUp);
      }
    }

    /** The rest of `handleFunctionCalls` once the handler returned `result`:
        the record the handler saves, if any, then the tool turn keyed by
        `id`, then the follow-up reply. */
    method FinishToolCall(saved: Option<Record>, result: Json, id: string, at: nat, followUp: Reply)
      returns (outcome: Outcome)
      requires Valid()
      modifies this
      ensures Valid()
      ensures (Snapshot(), outcome) == AppState.FinishToolCall(old(Snapshot()), saved, result, id, at, followUp)
    {
      if saved.Some? {
        var _ := SaveMessageToChat(saved.value.role, saved.value.content, at);
      }
      conversationHistory := conversationHistory + [ToolResult(Encoded(result), id)];
      match followUp {
        case Error(msg) =>
          outcome := Failed(RequestFailed(msg));
        case Message(content, _, at2) =>
          if Truthy(content) {
            var _ := SaveMessageToChat(Assistant, Plain(content), at2);
            conversationHistory := conversationHistory + [Said(Assistant, Plain(content))];
          }
          outcome := Completed;
      }
    }

    /** `updatePromptOptionsMessageState(timestamp, updates)`. */
    method UpdatePromptOptionsMessageState(timestamp: Option<string>, updates: map<string, Json>)
      requires Valid()
      modifies this
      ensures Valid()
      ensures Snapshot() == PatchChooser(old(Snapshot()), timestamp, updates)
    {
      if timestamp.None? || timestamp.value == "" {
        return;
      }
      if currentChatId.None? || currentChatId.value !in chats {
        return;
      }
      var id := currentChatId.value;
      var target := ParseDecimal(timestamp.value);
      if target.None? {
        return;
      }
      var chat := chats[id];
      var i := FindRecord(chat.messages, target.value, PromptOptions);
      if i.None? {
        return;
      }
      var payload := Parse(chat.messages[i.value].content);
      if payload.None? {
        return;
      }
      var updated := PromptOptions.Merge(payload.value, updates);
      chats := chats[id := chat.(messages := chat.messages[i.value := chat.messages[i.value].(content := Encoded(updated))])];
      stored := chats;
    }

    /** `updateSurveyMessageState(timestamp, {config, state})`. */
    method UpdateSurveyMessageState(timestamp: Option<string>, configPatch: Option<map<string, Json>>,
                                    statePatch: Option<map<string, Json>>)
      requires Valid()
      modifies this
      ensures Valid()
      ensures Snapshot() == PatchSurvey(old(Snapshot()), timestamp, configPatch, statePatch)
    {
      if timestamp.None? || timestamp.value == "" {
        return;
      }
      if currentChatId.None? || currentChatId.value !in chats {
        return;
      }
      var id := currentChatId.value;
      var target := ParseDecimal(timestamp.value);
      if target.None? {
        return;
      }
      var chat := chats[id];
      var i := FindRecord(chat.messages, target.value, Survey);
      if i.None? {
        return;
      }
      var payload := Parse(chat.messages[i.value].content);
      if payload.None? {
        return;
      }
      var updated := Survey.MergeSurveyPayload(payload.value, configPatch, statePatch);
      chats := chats[id := chat.(messages := chat.messages[i.value := chat.messages[i.value].(content := Encoded(updated))])];
      stored := chats;
    }

    /** `handlePromptOptionConfirm(option, index, timestamp)` at time `at`. */
    method HandlePromptOptionConfirm(option: Json, index: int, timestamp: Option<string>, at: nat)
      requires Valid()
      modifies this
      ensures Valid()
      ensures Snapshot() == Confirm(old(Snapshot()), option, index, timestamp, at)
    {
      var message := Plain(JStr(PromptOptions.ChoiceMessage(Member(option, "title"))));
      var _ := SaveMessageToChat(User, message, at);
      var _ := SaveMessageToChat(PromptUpdate, PromptOf(option), at);
      conversationHistory := conversationHistory + [Said(User, message)];
      UpdatePromptOptionsMessageState(timestamp, PromptOptions.ConfirmPatch(index));
    }

    /** `handlePromptOptionCancel(timestamp)`. */
    method HandlePromptOptionCancel(timestamp: Option<string>)
      requires Valid()
      modifies this
      ensures Valid()
      ensures Snapshot() == Cancel(old(Snapshot()), timestamp)
    {
      UpdatePromptOptionsMessageState(timestamp, PromptOptions.CancelPatch());
    }

    /** `submitSurveyResponse(config, …, answers)` at time `at`. */
    method SubmitSurveyResponse(c: Survey.SurveyConfig, timestamp: Option<string>, answers: Json,
                                at: nat, reply: Reply, followUp: Reply) returns (outcome: Outcome)
      requires Valid()
      modifies this
      ensures Valid()
      ensures (Snapshot(), outcome) == SubmitSurvey(old(Snapshot()), c, timestamp, answers, at, reply, followUp)
    {
      if Survey.FormatSurveyAnswerSummary(answers).None? {
        return Aborted;
      }
      UpdateSurveyMessageState(timestamp, None, Some(Survey.CompletionPatch(answers, at)));
      var text := Survey.BuildSurveyAnswerMessage(c, answers);
      if text.Some? {
        outcome := SendMessage(text.value, at, reply, followUp);
      } else {
        outcome := Completed;
      }
    }
  }

  /** The `data-message-timestamp` attribute a widget gets: the record's
      timestamp written in decimal, when it is truthy. */
  function StampAttr(stamp: Option<nat>): (r: Option<string>)
    ensures r.Some? ==> stamp.Some? && ParseDecimal(r.value) == Some(stamp.value)
  {
    if stamp.Some? && stamp.value > 0 then
      DecimalRoundTrip(stamp.value);
      Some(NatToString(stamp.value))
    else None
  }

  /** A prompt-options widget after `appendPromptOptionsMessage` drew it:
      `currentIndex` is its closure variable, `completed` its
      `data-completed` flag, `hasActions` whether its confirm and cancel
      buttons are in the page, `attached` whether it is in the page. */
  class PromptChooser {
    const options: seq<Json>
    const timestamp: Option<string>
    var currentIndex: Option<int>
    var completed: bool
    var hasActions: bool
    var attached: bool

    constructor (options: seq<Json>, st: PromptOptions.ChooserState, stamp: Option<nat>)
      requires |options| > 0 && !st.dismissed
      requires forall k :: 0 <= k < |options| ==> options[k] != JNull
      ensures this.options == options && timestamp == StampAttr(stamp)
      ensures currentIndex == st.selectedIndex && completed == st.completed
      ensures hasActions == !st.completed && attached
    {
      this.options := options;
      timestamp := StampAttr(stamp);
      currentIndex := st.selectedIndex;
      completed := st.completed;
      hasActions := !st.completed;
      attached := true;
    }

    /** A click on option `i`: ignored once completed; otherwise it becomes
        the current choice and is stored with `dismissed: false`. */
    method Select(app: App, i: nat)
      requires app.Valid() && i < |options|
      modifies this, app
      ensures app.Valid()
      ensures completed == old(completed) && hasActions == old(hasActions) && attached == old(attached)
      ensures old(!attached || completed) ==> currentIndex == old(currentIndex) && app.Snapshot() == old(app.Snapshot())
      ensures old(attached && !completed) ==>
        currentIndex == Some(i) &&
        app.Snapshot() == PatchChooser(old(app.Snapshot()), timestamp, PromptOptions.SelectPatch(i))
    {
      if !attached || completed {
        return;
      }
      currentIndex := Some(i);
      app.UpdatePromptOptionsMessageState(timestamp, PromptOptions.SelectPatch(i));
    }

    /** The confirm button: with no choice yet, or no button, nothing
        happens; a restored index outside the options makes
        `option.title` throw before anything changes; otherwise the choice
        is confirmed and the buttons removed. */
    method Confirm(app: App, at: nat)
      requires app.Valid()
      modifies this, app
      ensures app.Valid()
      ensures currentIndex == old(currentIndex) && attached == old(attached)
      ensures var ok := old(attached && hasActions && currentIndex.Some? && 0 <= currentIndex.value < |options|);
        if ok then
          completed && !hasActions &&
          app.Snapshot() == AppState.Confirm(old(app.Snapshot()), options[currentIndex.value], currentIndex.value, timestamp, at)
        else
          completed == old(completed) && hasActions == old(hasActions) && app.Snapshot() == old(app.Snapshot())
    {
      if !attached || !hasActions || currentIndex.None? {
        return;
      }
      var index := currentIndex.value;
      if !(0 <= index < |options|) {
        return;
      }
      app.HandlePromptOptionConfirm(options[index], index, timestamp, at);
      completed := true;
      hasActions := false;
    }

    /** The cancel button: stores `dismissed: true` and removes the widget. */
    method Cancel(app: App)
      requires app.Valid()
      modifies this, app
      ensures app.Valid()
      ensures currentIndex == old(currentIndex) && completed == old(completed) && hasActions == old(hasActions)
      ensures old(attached && hasActions) ==> !attached && app.Snapshot() == AppState.Cancel(old(app.Snapshot()), timestamp)
      ensures !old(attached && hasActions) ==> attached == old(attached) && app.Snapshot() == old(app.Snapshot())
    {
      if !attached || !hasActions {
        return;
      }
      app.HandlePromptOptionCancel(timestamp);
      attached := false;
    }
  }

  /** The `value` attribute of an option input, as read back from the page:
      the option's text (`null` gives the empty string). */
  function OptionValue(option: Json): (r: string)
    ensures option.JStr? ==> r == option.s
    ensures option.JNull? ==> r == ""
    ensures option.JNum? ==> r == IntToString(option.n)
  {
    if option.JNull? then "" else Str(option)
  }

  /** `selectedOptions.includes(option)`: equal primitives match; arrays and
      objects are distinct objects after parsing and never do. */
  function Includes(selected: seq<Json>, option: Json): (r: bool)
    ensures r ==> option in selected
    ensures option.JArr? || option.JObj? ==> !r
    ensures option in selected && (option.JStr? || option.JNum? || option.JBool? || option.JNull?) ==> r
  {
    !option.JArr? && !option.JObj? && option in selected
  }

  /** A survey widget after `appendSurveyMessage` drew it: `completed` is
      its `data-completed` flag, `disabled` whether its inputs are disabled,
      `listening` whether its change and input listeners were attached,
      `checked` the option inputs' state and `text` the textarea's value. */
  class SurveyForm {
    const config: Survey.SurveyConfig
    const timestamp: Option<string>
    const listening: bool
    var completed: bool
    var disabled: bool
    var checked: seq<bool>
    var text: string

    ghost predicate Valid()
      reads this
    {
      |checked| == |config.options| && (!listening ==> disabled)
    }

    constructor (c: Survey.SurveyConfig, st: Survey.SurveyState, stamp: Option<nat>)
      requires Survey.Renders(c, st)
      ensures Valid() && config == c && timestamp == StampAttr(stamp)
      ensures completed == st.completed && disabled == st.completed && listening == !st.completed
      ensures forall k :: 0 <= k < |checked| ==> (checked[k] <==> Includes(st.selectedOptions, c.options[k]))
      ensures text == st.inputValue
    {
      config := c;
      timestamp := StampAttr(stamp);
      listening := !st.completed;
      completed := st.completed;
      disabled := st.completed;
      checked := seq(|c.options|, k requires 0 <= k < |c.options| => Includes(st.selectedOptions, c.options[k]));
      text := st.inputValue;
    }

    /** The values of the checked inputs, in document order. */
    function SelectedValues(): (r: seq<string>)
      reads this
      requires Valid()
    {
      Picked(config.options, checked)
    }

    /** A click on option input `k`: a checkbox toggles; a radio button
        becomes the only one checked (clicking a checked radio fires no
        change). The new selection is stored. Disabled inputs ignore clicks. */
    method Click(app: App, k: nat)
      requires Valid() && app.Valid() && k < |checked|
      requires config.kind == JStr(Survey.MultipleChoice)
      modifies this, app
      ensures Valid() && app.Valid()
      ensures completed == old(completed) && disabled == old(disabled) && text == old(text)
      ensures old(disabled) ==> checked == old(checked) && app.Snapshot() == old(app.Snapshot())
      ensures !old(disabled) && config.allowMultiple ==> checked == old(checked)[k := !old(checked)[k]]
      ensures !old(disabled) && !config.allowMultiple && !old(checked)[k] ==>
        forall j :: 0 <= j < |checked| ==> (checked[j] <==> j == k)
      ensures !old(disabled) && (config.allowMultiple || !old(checked)[k]) ==>
        app.Snapshot() == PatchSurvey(old(app.Snapshot()), timestamp, None,
          Some(map["selectedOptions" := JArr(Survey.Strings(Picked(config.options, checked)))]))
      ensures !old(disabled) && !config.allowMultiple && old(checked)[k] ==>
        checked == old(checked) && app.Snapshot() == old(app.Snapshot())
    {
      if disabled {
        return;
      }
      if config.allowMultiple {
        checked := checked[k := !checked[k]];
      } else if checked[k] {
        return;
      } else {
        var n := |checked|;
        checked := seq(n, j requires 0 <= j < n => j == k);
      }
      var selected := Picked(config.options, checked);
      app.UpdateSurveyMessageState(timestamp, None, Some(map["selectedOptions" := JArr(Survey.Strings(selected))]));
    }

    /** Typing into the textarea of an input survey stores the new text. */
    method Type(app: App, value: string)
      requires Valid() && app.Valid()
      requires config.kind != JStr(Survey.MultipleChoice)
      modifies this, app
      ensures Valid() && app.Valid()
      ensures completed == old(completed) && disabled == old(disabled) && checked == old(checked)
      ensures old(disabled) ==> text == old(text) && app.Snapshot() == old(app.Snapshot())
      ensures !old(disabled) ==>
        text == value &&
        app.Snapshot() == PatchSurvey(old(app.Snapshot()), timestamp, None, Some(map["inputValue" := JStr(value)]))
    {
      if disabled {
        return;
      }
      text := value;
      app.UpdateSurveyMessageState(timestamp, None, Some(map["inputValue" := JStr(value)]));
    }

    /** The submit button (`handleSurveySubmit`): a completed survey, or a
        required one left empty, is rejected and nothing changes; otherwise
        the widget is marked completed and disabled and the response is
        submitted. */
    method Submit(app: App, at: nat, reply: Reply, followUp: Reply) returns (outcome: Option<Outcome>)
      requires Valid() && app.Valid()
      modifies this, app
      ensures Valid() && app.Valid()
      ensures checked == old(checked) && text == old(text)
      ensures var answers := Survey.CheckSubmission(config, old(completed), old(SelectedValues()), old(text));
        if answers.None? then
          outcome.None? && completed == old(completed) && disabled == old(disabled) &&
          app.Snapshot() == old(app.Snapshot())
        else
          completed && disabled && outcome.Some? &&
          (app.Snapshot(), outcome.value) ==
            SubmitSurvey(old(app.Snapshot()), config, timestamp, answers.value, at, reply, followUp)
    {
      var answers := Survey.CheckSubmission(config, completed, SelectedValues(), text);
      if answers.None? {
        return None;
      }
      Survey.AcceptedSubmissionIsSent(config, completed, SelectedValues(), text);
      completed := true;
      disabled := true;
      var o := app.SubmitSurveyResponse(config, timestamp, answers.value, at, reply, followUp);
      outcome := Some(o);
    }
  }

  /** The values of the checked option inputs, in document order. */
  function Picked(options: seq<Json>, checked: seq<bool>): (r: seq<string>)
    requires |checked| == |options|
    ensures |r| <= |options|
    ensures forall j :: 0 <= j < |options| && checked[j] ==> OptionValue(options[j]) in r
    ensures forall v :: v in r ==> exists j :: 0 <= j < |options| && checked[j] && v == OptionValue(options[j])
  {
    if options == [] then []
    else
      var rest := Picked(options[1..], checked[1..]);
      assert forall v :: v in rest ==> exists j :: 1 <= j < |options| && checked[j] && v == OptionValue(options[j]) by {
        forall v | v in rest
          ensures exists j :: 1 <= j < |options| && checked[j] && v == OptionValue(options[j])
        {
          var j :| 0 <= j < |options[1..]| && checked[1..][j] && v == OptionValue(options[1..][j]);
          assert checked[j + 1] && v == OptionValue(options[j + 1]);
        }
      }
      (if checked[0] then [OptionValue(options[0])] else []) + rest
  }

  /** `Picked` is a filter: the values picked from two runs of inputs are
      those picked from the first run followed by those of the second, so
      document order is kept. */
  lemma {:induction false} PickedAppend(o1: seq<Json>, c1: seq<bool>, o2: seq<Json>, c2: seq<bool>)
    requires |c1| == |o1| && |c2| == |o2|
    ensures Picked(o1 + o2, c1 + c2) == Picked(o1, c1) + Picked(o2, c2)
  {
    if o1 == [] {
      assert o1 + o2 == o2 && c1 + c2 == c2;
    } else {
      assert (o1 + o2)[1..] == o1[1..] + o2 && (c1 + c2)[1..] == c1[1..] + c2;
      PickedAppend(o1[1..], c1[1..], o2, c2);
    }
  }

  /** A single input contributes its value exactly when it is checked. */
  lemma PickedSingle(o: Json, c: bool)
    ensures Picked([o], [c]) == if c then [OptionValue(o)] else []
  {
    assert [o][1..] == [] && [c][1..] == [];
  }
}
