/** What `loadChat` redraws from a stored log (app.js `chat.messages.forEach`
    switch): one widget per record, or none when the record is dismissed,
    unparseable or fails to render. */
module Replay {
  import opened Wrappers
  import opened Json
  import opened Chat
  import PromptOptions
  import Survey

  /** A widget put on screen while replaying a record. `timestamp` is the
      `data-message-timestamp` attribute, present when the record's
      timestamp is truthy. */
  datatype Shown =
    | Bubble(role: Role, content: Content)
    | PromptUpdateShown(content: Content)
    | FinalPromptShown(prompt: Option<Json>, summary: Option<Json>, service: string)
    | ChooserShown(options: seq<Json>, choice: PromptOptions.ChooserState, timestamp: Option<nat>)
    | SurveyShown(config: Survey.SurveyConfig, answer: Survey.SurveyState, timestamp: Option<nat>)

  function TimestampAttr(t: nat): Option<nat>
  {
    if t > 0 then Some(t) else None
  }

  /** Whether a stored chooser payload is dismissed (`parsed && parsed.dismissed`). */
  predicate DismissedPayload(payload: Json)
  {
    Truthy(payload) && Present(Member(payload, "dismissed"))
  }

  /** The widget a prompt-options record redraws as, if any. A `null` option
      makes the rendering throw (`option.title`), which `loadChat` catches. */
  function ShowChooser(payload: Json, t: nat): (r: seq<Shown>)
    ensures DismissedPayload(payload) ==> r == []
    ensures |r| <= 1
  {
    if DismissedPayload(payload) then []
    else
      var options := Or(Member(payload, "options"), JArr([]));
      if !options.JArr? || |options.items| == 0 then []
      else if exists k :: 0 <= k < |options.items| && options.items[k] == JNull then []
      else [ChooserShown(options.items, PromptOptions.StateOf(payload), TimestampAttr(t))]
  }

  /** The final-prompt card, or the raw record as an assistant bubble when
      the payload does not parse, is `null`, or names a service that is not
      a string (`service.toUpperCase` throws). An absent service falls back
      to the dropdown, which `loadChat` has just set to the chat's service. */
  function ShowFinalPrompt(m: StoredMessage, service: string): (r: Shown)
    ensures Parse(m.content).None? ==> r == Bubble(Assistant, m.content)
    ensures r.FinalPromptShown? <==>
      Parse(m.content).Some? && !Parse(m.content).value.JNull? &&
      Or(Member(Parse(m.content).value, "service"), JStr(service)).JStr?
    ensures !r.FinalPromptShown? ==> r == Bubble(Assistant, m.content)
    ensures r.FinalPromptShown? ==>
      r.prompt == Member(Parse(m.content).value, "prompt") &&
      r.summary == Member(Parse(m.content).value, "summary") &&
      r.service == (if Present(Member(Parse(m.content).value, "service")) then Member(Parse(m.content).value, "service").value.s else service)
  {
    var parsed := Parse(m.content);
    if parsed.None? || parsed.value.JNull? then Bubble(Assistant, m.content)
    else
      var s := Or(Member(parsed.value, "service"), JStr(service));
      if !s.JStr? then Bubble(Assistant, m.content)
      else FinalPromptShown(Member(parsed.value, "prompt"), Member(parsed.value, "summary"), s.s)
  }

  /** What one record redraws as. `service` is the dropdown value. */
  function ShowRecord(m: StoredMessage, service: string): (r: seq<Shown>)
    ensures IsConversational(m.role) ==> r == [Bubble(m.role, m.content)]
    ensures |r| <= 1
  {
    match m.role
    case User => [Bubble(User, m.content)]
    case Assistant => [Bubble(Assistant, m.content)]
    case PromptUpdate => [PromptUpdateShown(m.content)]
    case FinalPrompt => [ShowFinalPrompt(m, service)]
    case PromptOptions =>
      if Parse(m.content).None? then [] else ShowChooser(Parse(m.content).value, m.timestamp)
    case Survey =>
      var payload := Parse(m.content);
      if payload.None? then []
      else
        var c := Survey.NormalizeConfig(Survey.Section(payload.value, "config"));
        var st := Survey.NormalizeState(Survey.Section(payload.value, "state"));
        if Survey.Renders(c, st) then [SurveyShown(c, st, TimestampAttr(m.timestamp))] else []
  }

  /** The widgets drawn for each record of a log, one record after the
      other (the `forEach` of `loadChat`). */
  function Flatten(ms: seq<StoredMessage>, show: StoredMessage -> seq<Shown>): seq<Shown>
  {
    if ms == [] then []
    else Flatten(ms[..|ms| - 1], show) + show(ms[|ms| - 1])
  }

  lemma {:induction false} FlattenAppend(a: seq<StoredMessage>, b: seq<StoredMessage>, show: StoredMessage -> seq<Shown>)
    ensures Flatten(a + b, show) == Flatten(a, show) + Flatten(b, show)
  {
    if b == [] {
      assert a + b == a;
    } else {
      assert (a + b)[..|a + b| - 1] == a + b[..|b| - 1];
      FlattenAppend(a, b[..|b| - 1], show);
    }
  }

  /** `ShowRecord` with the dropdown at `service`. */
  function Shower(service: string): StoredMessage -> seq<Shown>
  {
    m => ShowRecord(m, service)
  }

  /** The whole screen `loadChat` rebuilds, in log order. */
  function Replay(ms: seq<StoredMessage>, service: string): seq<Shown>
  {
    Flatten(ms, Shower(service))
  }

  lemma ReplayAppend(a: seq<StoredMessage>, b: seq<StoredMessage>, service: string)
    ensures Replay(a + b, service) == Replay(a, service) + Replay(b, service)
  {
    FlattenAppend(a, b, Shower(service));
  }

  lemma DismissedShowsNothing(m: StoredMessage, service: string)
    requires m.role == PromptOptions
    requires Parse(m.content).Some? && DismissedPayload(Parse(m.content).value)
    ensures ShowRecord(m, service) == []
  {
  }

  lemma ReplaySingle(m: StoredMessage, service: string)
    ensures Replay([m], service) == ShowRecord(m, service)
  {
    var show := Shower(service);
    assert [m][..0] == [] && [m][0] == m;
    assert Flatten([m], show) == Flatten([], show) + show(m);
    assert show(m) == ShowRecord(m, service);
  }

  /** A record that draws nothing can be dropped from the log without
      changing the redrawn screen. */
  lemma ReplaySkips(pre: seq<StoredMessage>, x: StoredMessage, post: seq<StoredMessage>, service: string)
    requires ShowRecord(x, service) == []
    ensures Replay(pre + [x] + post, service) == Replay(pre + post, service)
  {
    ReplaySingle(x, service);
    ReplayAppend(pre, [x], service);
    ReplayAppend(pre + [x], post, service);
    ReplayAppend(pre, post, service);
  }

  /** A dismissed chooser record contributes nothing: the screen rebuilt
      from the log is the same as if the record were not there. */
  lemma DismissedRecordInvisible(ms: seq<StoredMessage>, i: nat, service: string)
    requires i < |ms| && ms[i].role == PromptOptions
    requires Parse(ms[i].content).Some? && DismissedPayload(Parse(ms[i].content).value)
    ensures Replay(ms, service) == Replay(ms[..i] + ms[i + 1..], service)
  {
    DismissedShowsNothing(ms[i], service);
    assert ms == ms[..i] + [ms[i]] + ms[i + 1..];
    ReplaySkips(ms[..i], ms[i], ms[i + 1..], service);
  }

  /** Once cancelled, a chooser is never drawn again, whatever its payload
      held before. */
  lemma CancelledNeverShown(payload: Json, t: nat)
    ensures ShowChooser(PromptOptions.Merge(payload, PromptOptions.CancelPatch()), t) == []
  {
    var merged := PromptOptions.Merge(payload, PromptOptions.CancelPatch());
    assert merged.fields["dismissed"] == JBool(true);
    assert DismissedPayload(merged);
  }

  /** A confirmed chooser whose options were saved as a non-empty array
      without `null` entries redraws completed, with the confirmed option
      selected and the same options. */
  lemma ConfirmedShownCompleted(payload: Json, i: int, t: nat)
    requires payload.JObj? && Member(payload, "options").Some? && Member(payload, "options").value.JArr?
    requires |Member(payload, "options").value.items| > 0
    requires forall k :: 0 <= k < |Member(payload, "options").value.items| ==> Member(payload, "options").value.items[k] != JNull
    ensures ShowChooser(PromptOptions.Merge(payload, PromptOptions.ConfirmPatch(i)), t) ==
      [ChooserShown(Member(payload, "options").value.items, PromptOptions.ChooserState(Some(i), true, false), TimestampAttr(t))]
  {
    var merged := PromptOptions.Merge(payload, PromptOptions.ConfirmPatch(i));
    PromptOptions.MergeKeepsUnpatchedKeys(payload, PromptOptions.ConfirmPatch(i), "options");
    PromptOptions.ConfirmedState(payload, i);
    assert Member(merged, "dismissed") == Some(JBool(false));
  }

  /** A survey saved with a normal configuration and state and then
      completed redraws completed, with the submitted answers, as long as
      it rendered before and its summary renders. */
  lemma SubmittedSurveyShownCompleted(c: Survey.SurveyConfig, st: Survey.SurveyState, answers: Json, submittedAt: nat, t: nat)
    requires Survey.NormalConfig(c) && Truthy(answers) && submittedAt > 0
    requires Survey.Renders(c, st) && Survey.FormatSurveyAnswerSummary(answers).Some?
    ensures ShowRecord(StoredMessage(Survey, Encoded(Survey.MergeSurveyPayload(Survey.Payload(c, st), None,
        Some(Survey.CompletionPatch(answers, submittedAt)))), t), "") ==
      [SurveyShown(c, st.(completed := true, answers := answers, submittedAt := JNum(submittedAt)), TimestampAttr(t))]
  {
    var merged := Survey.MergeSurveyPayload(Survey.Payload(c, st), None, Some(Survey.CompletionPatch(answers, submittedAt)));
    Survey.CompletionRecorded(c, st, answers, submittedAt);
    ShowSurveyRecord(merged, t, "");
  }

  /** A survey record redraws from the normalised sections of its payload. */
  lemma ShowSurveyRecord(payload: Json, t: nat, service: string)
    ensures var c := Survey.NormalizeConfig(Survey.Section(payload, "config"));
      var st := Survey.NormalizeState(Survey.Section(payload, "state"));
      ShowRecord(StoredMessage(Survey, Encoded(payload), t), service) ==
        if Survey.Renders(c, st) then [SurveyShown(c, st, TimestampAttr(t))] else []
  {
  }

  /** A survey whose stored state is dismissed is never redrawn, whatever
      its configuration (the `normalizedState.dismissed` early return). */
  lemma DismissedSurveyShowsNothing(payload: Json, t: nat, service: string)
    requires Present(Member(Survey.Section(payload, "state"), "dismissed"))
    ensures ShowRecord(StoredMessage(Survey, Encoded(payload), t), service) == []
  {
    ShowSurveyRecord(payload, t, service);
  }
}
