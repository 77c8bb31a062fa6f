# MORPHES conversation bookkeeping, in Dafny

MORPHES is a single-page prompt-crafting assistant. The user chats with a
language model, which can answer in text or call one of four tools:

- `suggest_prompt_options` shows a two-option chooser;
- `update_prompt` shows the current prompt;
- `finalize_prompt` shows the final prompt with a button for the target service;
- `request_survey` shows a small survey form.

Everything the page remembers lives in one object, `APP_STATE`:

- the chats, each an append-only log of `{role, content, timestamp}`
  records, saved to local storage whenever a chat is created or a record
  is added or rewritten (the title a first message gives its chat is
  saved only by the next of those);
- the id of the current chat;
- the conversation history sent to the model.

The chooser and the survey keep their own state inside their stored records.
They update those records in place, found by timestamp and role.

This project models that bookkeeping and proves what it keeps true.

- `wrappers.dfy`: `Option`.
- `text.dfy` (`Text`): the string work the page does.
  - `trim`, with JavaScript's white-space set.
  - Decimal rendering of timestamps and their parsing back by `Number`.
  - The 30-character chat title.
- `json.dfy` (`Json`): stored payloads as JSON values, and the JavaScript
  semantics the code relies on.
  - Truthiness, `||` defaults, property reads.
  - `String()` and `join`.
  - Object spread, including the index keys an array or a string spreads into.
- `chat.dfy` (`Chat`): the data model.
  - Roles, stored records, chats, history turns, and `JSON.parse` of stored content.
  - The history projection `loadChat` performs.
  - The `find` by timestamp and role.
  - The pairing of tool results with tool requests.
- `listing.dfy` (`Listing`): the newest-first order of the sidebar.
- `prompt_options.dfy` (`PromptOptions`): the chooser.
  - Its normalised state and its stored payload.
  - The shallow merge, and the select, confirm and cancel patches.
- `survey.dfy` (`Survey`): the survey.
  - Configuration and state normalisation, with their defaults.
  - The stored payload and the two-level merge.
  - Submission validation.
  - The answer summary and the answer message.
- `replay.dfy` (`Replay`): what `loadChat` redraws from a stored log.
- `state.dfy` (`AppState`): the whole application state as a value, and each
  operation as a transition function. The main invariant is `InSync`: the
  history, less its tool turns, is the projection of the current chat's log.
- `app.dfy` (`Page`): the imperative program.
  - An `App` class whose fields are `APP_STATE` and whose methods update them
    step by step. Each method is proved to reach the state the matching
    `AppState` transition describes.
  - The chooser and survey widgets, as classes holding their closure and DOM state.

Inputs from outside the page become parameters:

- the clock (`Date.now()`), as natural-number timestamps;
- the model's replies, as `Reply` values;
- the user's clicks and typing, as method calls;
- whether an API key is set.

Stored content is `Encoded(v)` when the page wrote `JSON.stringify(v)`, and
`Plain(v)` when it stored a raw value. `JSON.parse` succeeds on the first and
fails on the second.

## Model

| member | source | states |
|---|---|---|
| Text.TrimIsInnerSlice | app.js:1227 | `trim` returns a slice of its input with only white space cut from either end; the result neither starts nor ends with white space and is empty exactly when the input is all white space |
| Text.NatToString | app.js:451 | a timestamp renders as a non-empty run of decimal digits with no leading zero |
| Text.DecimalRoundTrip | app.js:952 | `Number` applied to the decimal form of a timestamp gives the timestamp back, so a widget's `data-message-timestamp` finds its own record |
| Text.ChatTitleShape | app.js:597-601 | a chat title is the message itself when it has at most 30 characters, otherwise its first 30 characters followed by `...`; it never exceeds 33 characters |
| Json.JoinMentionsEach | app.js:1358 | every part of a `join` occurs in the joined string |
| Json.SpreadNamedKey | app.js:968-971 | spreading a value supplies a non-index key exactly when the value has that property, with the same value |
| Chat.HistoryOf | app.js:479-484 | the rebuilt history holds only user and assistant turns, never more turns than records |
| Chat.HistoryOfAppend | app.js:479-484 | the projection of two logs one after the other is the two projections one after the other (order is kept) |
| Chat.HistoryOfLength | app.js:479-484 | the history has exactly one turn per user or assistant record |
| Chat.HistoryOfSelects | app.js:479-484 | a user or assistant record becomes the turn numbered by the count of such records before it, with the same role and content |
| Chat.HistoryIgnoresWidgetEdit | app.js:479-484 | rewriting the content of a widget record (`prompt_options`, `survey`, `prompt_update`, `final_prompt`) leaves the rebuilt history unchanged |
| Chat.HistoryOfPush | app.js:1570 | appending a record to a log extends its projection by that record's turn exactly when it is a user or assistant record |
| Chat.ConversationAppend | app.js:681-712 | dropping the tool turns from a history distributes over concatenation |
| Chat.ConversationPush | app.js:681-712 | pushing a turn extends the tool-free history exactly when the turn is a user or assistant turn |
| Chat.ConversationOfHistory | app.js:479-484 | a history rebuilt from a log has no tool turns to drop |
| Chat.FirstMatch | app.js:953 | `find` returns the first record with the given timestamp and role, and none only when no record has both |
| Chat.ExchangeKeepsPairing | app.js:681-712 | after a request turn, its result keyed by the first call's id and plain turns, every tool result still follows a request declaring its id |
| Listing.Insert | app.js:553-555 | inserting a key into a newest-first list keeps the same keys plus the new one |
| Listing.InsertKeepsOrder | app.js:553-555 | inserting a key into a newest-first list leaves it newest first |
| Listing.SortNewestFirst | app.js:553-555 | the sorted ids are a permutation of the chat keys with newer chats before older ones |
| PromptOptions.Normalize | app.js:769-773 | the selection is kept exactly when it is a number; completed and dismissed are the truthiness of the stored flags |
| PromptOptions.PayloadRoundTrip | app.js:827-831 | a saved chooser payload reloads into the state and options it was saved with |
| PromptOptions.Merge | app.js:964-971 | the merged payload is always an object, even when the stored one was `null` or a primitive |
| PromptOptions.MergeKeepsUnpatchedKeys | app.js:968-971 | a patched key takes the patch's value; every other key, `options` included, keeps its value |
| PromptOptions.ConfirmedState | app.js:913-917 | whatever was stored, a confirmed chooser is completed, not dismissed, with the confirmed index selected |
| PromptOptions.CancelledState | app.js:939-941 | a cancelled chooser is dismissed and keeps its selection and completion |
| PromptOptions.SelectedState | app.js:870-873 | a selection sets the index, clears `dismissed` and never changes the completion flag |
| PromptOptions.NamedKeysOfBase | app.js:964-971 | the merge base has a state key exactly when the stored payload has it |
| Survey.ConfigFromArgs | app.js:978-988 | the survey built from tool arguments is normal and has a truthy id (`survey_<now>` when none was given); `required` holds unless the argument is exactly `false`; the type defaults to `multiple_choice`; options not given as an array become `[]` |
| Survey.NormalizeConfig | app.js:999-1009 | a normalised configuration is normal, keeps the given survey id, and is required unless `required` is exactly `false`; each text field is kept when truthy and otherwise defaults (`''`, `multiple_choice` for the type, `응답 제출` for the label); options are kept only when they are an array, and are `[]` otherwise |
| Survey.ConfigRoundTrip | app.js:999-1009 | a saved configuration normalises back to itself |
| Survey.NormalizeConfigIdempotent | app.js:990 | normalising twice changes nothing, so what `handleRequestSurvey` builds is what `appendSurveyMessage` saves |
| Survey.NormalizeState | app.js:1016-1023 | a normalised state is normal, and completed or dismissed exactly when the stored flag is truthy; selections are kept only when they are an array (`[]` otherwise), the typed text only when it is a string (`''` otherwise), answers and time only when truthy (`null` otherwise) |
| Survey.StateRoundTrip | app.js:1016-1023 | a saved state normalises back to itself |
| Survey.InitialState | app.js:998 | a new survey starts neither completed nor dismissed and with no answers |
| Survey.PayloadRoundTrip | app.js:1123-1126 | a saved survey payload reloads into the configuration and state it was saved with |
| Survey.Renders | app.js:1011-1099 | a survey is never drawn (nor saved) without a truthy prompt, when dismissed, as a multiple-choice survey without options, or when its stored answer's summary throws |
| Survey.FormatSurveyAnswerSummary | app.js:1327-1348 | the summary is empty for no answers, and fails (`trim` is not a function) exactly for an input answer whose value is truthy but not a string |
| Survey.SummaryListsSelections | app.js:1330-1336 | a multiple-choice summary lists every selection as a `- ` bullet |
| Survey.BuildSurveyAnswerMessage | app.js:1350-1368 | no message exactly for a falsy answer or an unknown answer type; every message starts with the `[설문 응답…]` header |
| Survey.MessageListsSelections | app.js:1356-1359 | a multiple-choice message names every selection, or says `선택 없음` when there is none |
| Survey.CheckSubmission | app.js:1204-1239 | a submission is rejected exactly when the survey is completed, or is required and has no checked option (multiple choice) or only white space (input); an accepted one carries the checked values, or the trimmed text |
| Survey.MessageCarriesInput | app.js:1362-1365 | the message for an input answer ends with `응답 내용: ` and the typed text, which therefore appears in it |
| Survey.AcceptedSubmissionIsSent | app.js:1241-1286 | an accepted submission always renders its summary and always yields a message, which names every checked value of a multiple-choice survey and carries the trimmed text of an input survey |
| Survey.MergeSurveyPayload | app.js:1297-1323 | the merged payload is an object, except that an array payload is saved back unchanged |
| Survey.StatePatchKeepsConfig | app.js:1309-1321 | a state-only patch leaves the configuration and every other top-level property unchanged |
| Survey.StatePatchKeepsOtherKeys | app.js:1316-1321 | a state patch sets its keys and keeps every other key of the stored state (`selectedOptions` survives an `inputValue` patch) |
| Survey.StatePatchSections | app.js:1309-1321 | patching a saved survey's state keeps its configuration section and merges the patch over its state section |
| Survey.CompletedState | app.js:1274-1280 | the completion patch sets completed, the answers and the submission time, and keeps the rest of the state |
| Survey.CompletionRecorded | app.js:1274-1280 | a completed survey reloads with its configuration unchanged and its state completed with the submitted answers |
| Replay.ShowFinalPrompt | app.js:498-505 | a final-prompt record redraws as the card with its saved prompt, summary and service (the dropdown's when none is saved); an unparseable or `null` payload, or a non-string service, redraws as an assistant bubble of the raw text |
| Replay.ShowChooser | app.js:507-526 | a dismissed chooser payload draws nothing; any payload draws at most one chooser |
| Replay.ShowRecord | app.js:489-544 | a user or assistant record redraws as its own bubble; no record draws more than one widget |
| Replay.FlattenAppend | app.js:489 | drawing two logs one after the other, record by record, draws the two screens one after the other |
| Replay.ReplayAppend | app.js:489 | redrawing two logs one after the other draws the two screens one after the other |
| Replay.DismissedShowsNothing | app.js:510-512 | a dismissed chooser record redraws as nothing |
| Replay.ReplaySkips | app.js:489-544 | a record that draws nothing can be dropped from anywhere in the log without changing the screen |
| Replay.DismissedRecordInvisible | app.js:507-512 | a dismissed chooser record can be removed from the log without changing the redrawn screen |
| Replay.CancelledNeverShown | app.js:938-946 | once cancelled, a chooser is never drawn again, whatever it held |
| Replay.ConfirmedShownCompleted | app.js:913-917 | a confirmed chooser redraws completed, with the confirmed option selected and the same options |
| Replay.DismissedSurveyShowsNothing | app.js:1016-1027 | a survey whose stored state is dismissed is never redrawn, whatever its configuration |
| Replay.SubmittedSurveyShownCompleted | app.js:1274-1280 | a submitted survey redraws completed, with its submitted answers |
| AppState.Save | app.js:1558-1578 | with a current chat, exactly one record `{role, content, now}` is appended to it; the chat takes the dropdown's service and the chats are stored. Every other chat, the keys, the history and the service are unchanged. With no current chat, or a missing one, nothing changes |
| AppState.WidgetSaveKeepsSync | app.js:1558-1578 | saving a widget record keeps the history in step with the log |
| AppState.SayKeepsSync | app.js:621-629 | saving a user or assistant message and pushing the same turn keeps the history in step |
| AppState.ToolTurnKeepsSync | app.js:681-712 | pushing a tool request or result keeps the history in step |
| AppState.NewChat | app.js:450-468 | a new empty chat `chat_<now>` titled `새 대화`, created at the second clock reading, becomes current with an empty history; the chats are stored and no other chat changes |
| AppState.NewChatKeepsKeyed | app.js:450-468 | the key order still lists every chat once, and the new chat is in step with the empty history |
| AppState.OpenChat | app.js:471-484 | an unknown id changes nothing; a known chat becomes current, the dropdown takes its service (`chatgpt` if none) and the history becomes the projection of its log |
| AppState.OpenChatSyncs | app.js:479-484 | after opening a chat the history is in step with its log |
| AppState.Locate | app.js:948-955 | a targeted record is a record of the current chat with the right role |
| AppState.Rewrite | app.js:973-974 | rewriting a record changes that record's content only, and stores the chats |
| AppState.PatchChooserEffect | app.js:948-975 | for a widget whose attribute is the decimal form of `t`: with no record at `t`, or an unparseable one, nothing changes; otherwise exactly the first matching chooser record is rewritten to the merge of its payload and the patch |
| AppState.PatchSurveyEffect | app.js:1288-1325 | the same for the first survey record at `t` and the two-level merge |
| AppState.PatchesKeepSync | app.js:948-975 | patching a widget record never disturbs the conversation |
| AppState.SuggestPromptOptions | app.js:729-736 | the handler throws exactly for `null` arguments or an array of options holding a `null` option; it saves a chooser record exactly when the options form a non-empty array without `null`, and always reports success |
| AppState.UpdatePrompt | app.js:739-747 | the handler throws exactly for `null` arguments, otherwise saves `updated_prompt` (or `''`) as a `prompt_update` record |
| AppState.FinalizePrompt | app.js:750-761 | the handler throws exactly for `null` arguments or a non-string service; otherwise it saves as a `final_prompt` record the prompt (`final_prompt` or `''`), the summary (or `''`) and the resolved service |
| AppState.FinalizedPromptRedraws | app.js:750-761 | a finalised prompt reloads as the card with the saved prompt, summary and resolved service; only an empty resolved service falls back to the dropdown at reload time |
| AppState.RequestSurvey | app.js:977-996 | the handler throws exactly for `null` arguments; it saves a survey record exactly when the built survey renders (a prompt, and options for multiple choice) |
| AppState.Dispatch | app.js:689-705 | an unknown function name does nothing and yields a `null` result; no handler saves a user or assistant record |
| AppState.ToolCallTurns | app.js:673-726 | unparseable arguments add no turn. Otherwise the history gains the request turn carrying all calls; unless the handler throws, it then gains one result turn keyed by the first call's id, then an assistant turn exactly when the follow-up content is truthy. Result pairing is preserved |
| AppState.FinishTurns | app.js:707-725 | after a handler the history gains the tool turn, then an assistant turn exactly when the follow-up content is truthy |
| AppState.FinishKeepsSync | app.js:707-725 | the steps after a handler keep the history in step when the handler saved no user or assistant record |
| AppState.FinishKeepsTitle | app.js:707-725 | the steps after a handler never rename the current chat |
| AppState.ToolCallsKeepSync | app.js:673-726 | a tool-call exchange keeps the history in step with the log |
| AppState.SendWithoutChat | app.js:591-598 | with no chat to write to, sending throws before anything changes |
| AppState.FirstMessageTitles | app.js:597-601 | the first message of a chat names it; when the request fails, the stored copy keeps the old title |
| AppState.ToolCallsPreserveTitle | app.js:673-726 | nothing in a tool-call exchange renames the current chat |
| AppState.SendKeepsSync | app.js:591-637 | sending keeps the history in step with the log, whatever the replies |
| AppState.ConfirmAppends | app.js:898-917 | confirming adds exactly one user turn `"<title>" 옵션을 선택했습니다.` to the history; the same message then the option's prompt are added to the log |
| AppState.ConfirmKeepsSync | app.js:898-917 | confirming keeps the history in step with the log |
| AppState.SubmitSurveyKeepsSync | app.js:1241-1286 | submitting a survey keeps the history in step with the log |
| Page.FindRecord | app.js:953 | the loop returns the first record with the timestamp and role |
| Page.App.constructor | app.js:247-251 | the page starts with the stored chats, no chat open, an empty history |
| Page.App.ChooseService | app.js:1573 | changing the dropdown changes only the service later saves record |
| Page.App.SaveMessageToChat | app.js:1558-1578 | the fields end as `AppState.Save` describes; the record is returned exactly when a chat was written to |
| Page.App.CreateNewChat | app.js:450-468 | the fields end as `AppState.NewChat` describes, the history in step |
| Page.App.LoadChat | app.js:471-484 | the fields end as `AppState.OpenChat` describes, the history in step for a known chat |
| Page.App.RenderChatHistory | app.js:550-568 | the sidebar shows one entry per chat in newest-first order, each with its chat's title, the current chat alone marked active |
| Page.App.HandleSendMessage | app.js:571-588 | blank input or a missing API key sends nothing; otherwise the trimmed text is sent |
| Page.App.SendMessage | app.js:591-637 | the fields and outcome are those of `AppState.Send` |
| Page.App.HandleFunctionCalls | app.js:673-726 | the fields and outcome are those of `AppState.HandleToolCalls` |
| Page.App.FinishToolCall | app.js:707-725 | the fields and outcome are those of `AppState.FinishToolCall`: the handler's record saved, the tool turn pushed, the follow-up handled |
| Page.App.ReceiveReply | app.js:612-636 | the fields and outcome are those of `AppState.ReplyStep` |
| Page.SidebarItems | app.js:557-567 | the loop builds one entry per id, in order, with that chat's title and the active mark exactly on the current chat |
| Page.App.UpdatePromptOptionsMessageState | app.js:948-975 | the fields end as `AppState.PatchChooser` describes |
| Page.App.UpdateSurveyMessageState | app.js:1288-1325 | the fields end as `AppState.PatchSurvey` describes |
| Page.App.HandlePromptOptionConfirm | app.js:898-936 | the fields end as `AppState.Confirm` describes |
| Page.App.HandlePromptOptionCancel | app.js:938-946 | the fields end as `AppState.Cancel` describes |
| Page.App.SubmitSurveyResponse | app.js:1241-1286 | the fields and outcome are those of `AppState.SubmitSurvey` |
| Page.StampAttr | app.js:840-843 | a widget's timestamp attribute, when present, reads back as its record's timestamp |
| Page.PromptChooser.constructor | app.js:769-853 | a drawn chooser (non-empty options, none of them `null`) starts with the normalised selection and completion, buttons exactly when not completed |
| Page.PromptChooser.Select | app.js:856-876 | a click is ignored once the chooser is completed; otherwise the clicked option becomes current and is stored |
| Page.PromptChooser.Confirm | app.js:878-889 | with no selection, or no buttons, nothing happens; an index outside the options throws before any change; otherwise the choice is confirmed (`AppState.Confirm`) and the chooser completed |
| Page.PromptChooser.Cancel | app.js:891-896 | cancelling stores `dismissed` and removes the chooser |
| Page.SurveyForm.constructor | app.js:1053-1066 | a drawn survey checks exactly the stored selections and is disabled and deaf exactly when completed |
| Page.SurveyForm.Click | app.js:1155-1172 | a checkbox toggles, a radio becomes the only checked one, a disabled input ignores the click; the checked values are stored |
| Page.SurveyForm.Type | app.js:1173-1184 | typing stores the text unless the survey is disabled |
| Page.SurveyForm.Submit | app.js:1204-1239 | a rejected submission changes nothing; an accepted one marks the survey completed and disabled and submits it (`AppState.SubmitSurvey`) |
| Page.OptionValue | app.js:1058-1063 | an option input's value reads back as the option's text: the string itself, the decimal of a number, `''` for `null` |
| Page.Includes | app.js:1055 | a stored selection marks an option exactly when the option is a primitive found among the selections; a parsed array or object never matches |
| Page.Picked | app.js:1212-1215 | every checked input's value is submitted, and nothing else is |
| Page.PickedAppend | app.js:1212-1215 | picking is a filter: the values picked from two runs of inputs are those of the first run followed by those of the second, so document order reaches the sent text |
| Page.PickedSingle | app.js:1212-1215 | one input contributes its value exactly when checked |

## Left out

- The network call to the model (`callOpenAI`) is left out. Its replies are inputs, and a rejected request is the `RequestFailed` outcome.
- The DOM is left out: markup, markdown rendering, HTML escaping, the typing indicator, scrolling, alerts and status text.
  - Escaping does not touch quote characters, so an option containing `"` breaks its `value` attribute. Values are modelled as the option text.
- The welcome screen, the settings and pricing dialogs, the sidebar toggle, login, logout and `showApp`'s choice of chat at start-up are left out, as user-interface chrome.
- splash.js and login.js are not part of this model.
- Local storage and the JSON text format are left out.
  - The store is the `stored` field, a copy of the chats as last saved.
  - A stored value that is not JSON text counts as unparseable.
- `showFinalPrompt`'s target URL and `encodeURIComponent` are left out. The model keeps the resolved service, and the failure of `toUpperCase` on a non-string service.
- `APP_STATE.selectedPromptOption` is left out: it is written, never read.
- Two sends in flight at once are not modelled: the model handles each send from start to finish.
- Numbers are integers, and timestamps are natural numbers. `Number` is modelled on decimal digit strings, and any other string gives `NaN`.
- Strings are sequences of characters, not UTF-16 code units, in `substring`, `length` and `trim`.
- Page.PromptChooser and Page.SurveyForm: `clearMessages()` in `loadChat` and `createNewChat` removes every widget from the page. `Page.App.LoadChat` and `Page.App.CreateNewChat` do not detach the widget objects, so in the model a widget drawn before a reload can still be clicked, which on the page it cannot.
- AppState.Save: each save's `Date.now()` is the one clock reading of its step. Records saved in the same step share it.
- Chat.Role and Replay.ShowRecord: roles are the six the page writes. A stored record with any other role, which only edited storage can hold, is not modelled; `loadChat` would redraw it as an assistant bubble and leave it out of the history.
- AppState.Save: a current chat id that is the empty string is treated like any other id. The page's ids are always `chat_<ms>`, so one can only come from edited storage.
- Page.SurveyForm.constructor: when several stored selections match a radio group, all of them start checked, whereas the browser keeps only the last.
- Listing.SortNewestFirst: the order among chats created in the same millisecond is not stated.
- AppState.FinalizePrompt: a string service the URL table does not know is accepted, and its link is not modelled.
