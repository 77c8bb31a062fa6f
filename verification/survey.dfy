/** The survey widget (`survey` records): the configuration built from the
    `request_survey` arguments, the normalisation `appendSurveyMessage`
    applies to a stored `{config, state}` payload, the validation done on
    submit, the two-level merge of `updateSurveyMessageState` and the two
    texts built from a submitted answer. */
module Survey {
  import opened Wrappers
  import opened Text
  import opened Json

  const MultipleChoice: string := "multiple_choice"
  const InputType: string := "input"
  const DefaultSubmitLabel: string := "응답 제출"

  /** The normalised `config` object. `surveyId` is `None` when the stored
      config had none (it is then left out of the saved JSON). */
  datatype SurveyConfig = SurveyConfig(
    surveyId: Option<Json>,
    title: Json,
    prompt: Json,
    kind: Json,
    options: seq<Json>,
    allowMultiple: bool,
    required: bool,
    placeholder: Json,
    submitLabel: Json)

  /** The normalised `state` object. */
  datatype SurveyState = SurveyState(
    selectedOptions: seq<Json>,
    inputValue: string,
    completed: bool,
    dismissed: bool,
    answers: Json,
    submittedAt: Json)

  /** `v || ''` for the text fields. */
  function TextOr(v: Option<Json>): Json
  {
    Or(v, JStr(""))
  }

  /** The shape every normalised configuration has: text fields are truthy
      or empty, the type and the submit label are always truthy. */
  predicate NormalConfig(c: SurveyConfig)
  {
    (Truthy(c.title) || c.title == JStr("")) &&
    (Truthy(c.prompt) || c.prompt == JStr("")) &&
    Truthy(c.kind) &&
    (Truthy(c.placeholder) || c.placeholder == JStr("")) &&
    Truthy(c.submitLabel)
  }

  /** `survey_${Date.now()}`, the id used when the model gives none. */
  function FallbackSurveyId(now: nat): string
  {
    "survey_" + NatToString(now)
  }

  /** The `surveyConfig` literal of `handleRequestSurvey`: defaults for every
      missing argument; `required` unless the argument is exactly `false`. */
  function ConfigFromArgs(args: Json, now: nat): (c: SurveyConfig)
    ensures NormalConfig(c)
    ensures c.surveyId.Some? && Truthy(c.surveyId.value)
    ensures !Present(Member(args, "survey_id")) ==> c.surveyId == Some(JStr(FallbackSurveyId(now)))
    ensures c.required <==> Member(args, "required") != Some(JBool(false))
    ensures !Present(Member(args, "survey_type")) ==> c.kind == JStr(MultipleChoice)
    ensures (Member(args, "options").Some? && Member(args, "options").value.JArr?) || c.options == []
  {
    SurveyConfig(
      Some(Or(Member(args, "survey_id"), JStr(FallbackSurveyId(now)))),
      TextOr(Member(args, "title")),
      TextOr(Member(args, "prompt")),
      Or(Member(args, "survey_type"), JStr(MultipleChoice)),
      ArrayOr(Member(args, "options")),
      Present(Member(args, "allow_multiple")),
      Member(args, "required") != Some(JBool(false)),
      TextOr(Member(args, "placeholder")),
      Or(Member(args, "submit_label"), JStr(DefaultSubmitLabel)))
  }

  /** The `config` literal of `appendSurveyMessage` applied to `input`. */
  function NormalizeConfig(input: Json): (c: SurveyConfig)
    ensures NormalConfig(c)
    ensures c.surveyId == Member(input, "surveyId")
    ensures c.required <==> Member(input, "required") != Some(JBool(false))
    ensures c.kind == (if Present(Member(input, "type")) then Member(input, "type").value else JStr(MultipleChoice))
    ensures Member(input, "options").Some? && Member(input, "options").value.JArr? ==>
      c.options == Member(input, "options").value.items
    ensures !(Member(input, "options").Some? && Member(input, "options").value.JArr?) ==> c.options == []
    ensures c.prompt == (if Present(Member(input, "prompt")) then Member(input, "prompt").value else JStr(""))
    ensures c.title == (if Present(Member(input, "title")) then Member(input, "title").value else JStr(""))
    ensures c.placeholder == (if Present(Member(input, "placeholder")) then Member(input, "placeholder").value else JStr(""))
    ensures c.submitLabel ==
      (if Present(Member(input, "submitLabel")) then Member(input, "submitLabel").value else JStr(DefaultSubmitLabel))
    ensures c.allowMultiple <==> Present(Member(input, "allowMultiple"))
  {
    SurveyConfig(
      Member(input, "surveyId"),
      TextOr(Member(input, "title")),
      TextOr(Member(input, "prompt")),
      Or(Member(input, "type"), JStr(MultipleChoice)),
      ArrayOr(Member(input, "options")),
      Present(Member(input, "allowMultiple")),
      Member(input, "required") != Some(JBool(false)),
      TextOr(Member(input, "placeholder")),
      Or(Member(input, "submitLabel"), JStr(DefaultSubmitLabel)))
  }

  /** The configuration as saved (`JSON.stringify` drops an undefined id). */
  function EncodeConfig(c: SurveyConfig): Json
  {
    JObj(map[
      "title" := c.title,
      "prompt" := c.prompt,
      "type" := c.kind,
      "options" := JArr(c.options),
      "allowMultiple" := JBool(c.allowMultiple),
      "required" := JBool(c.required),
      "placeholder" := c.placeholder,
      "submitLabel" := c.submitLabel]
      + (if c.surveyId.Some? then map["surveyId" := c.surveyId.value] else map[]))
  }

  /** Each property of a saved configuration reads back as saved. */
  lemma EncodedConfigMembers(c: SurveyConfig)
    ensures Member(EncodeConfig(c), "surveyId") == c.surveyId
    ensures Member(EncodeConfig(c), "title") == Some(c.title)
    ensures Member(EncodeConfig(c), "prompt") == Some(c.prompt)
    ensures Member(EncodeConfig(c), "type") == Some(c.kind)
    ensures Member(EncodeConfig(c), "options") == Some(JArr(c.options))
    ensures Member(EncodeConfig(c), "allowMultiple") == Some(JBool(c.allowMultiple))
    ensures Member(EncodeConfig(c), "required") == Some(JBool(c.required))
    ensures Member(EncodeConfig(c), "placeholder") == Some(c.placeholder)
    ensures Member(EncodeConfig(c), "submitLabel") == Some(c.submitLabel)
  {
    assert "placeholder" != "submitLabel" by {
      assert "placeholder"[0] != "submitLabel"[0];
    }
    assert "required" != "surveyId" by {
      assert "required"[0] != "surveyId"[0];
    }
  }

  /** A normalised configuration survives saving and reloading unchanged. */
  lemma ConfigRoundTrip(c: SurveyConfig)
    requires NormalConfig(c)
    ensures NormalizeConfig(EncodeConfig(c)) == c
  {
    EncodedConfigMembers(c);
  }

  /** Normalisation is idempotent, and the configuration built from tool
      arguments is already normal: what `handleRequestSurvey` passes is what
      `appendSurveyMessage` renders and saves. */
  lemma NormalizeConfigIdempotent(input: Json, args: Json, now: nat)
    ensures NormalizeConfig(EncodeConfig(NormalizeConfig(input))) == NormalizeConfig(input)
    ensures NormalizeConfig(EncodeConfig(ConfigFromArgs(args, now))) == ConfigFromArgs(args, now)
  {
    ConfigRoundTrip(NormalizeConfig(input));
    ConfigRoundTrip(ConfigFromArgs(args, now));
  }

  predicate NormalState(st: SurveyState)
  {
    (Truthy(st.answers) || st.answers == JNull) && (Truthy(st.submittedAt) || st.submittedAt == JNull)
  }

  /** The `normalizedState` literal of `appendSurveyMessage`. */
  function NormalizeState(input: Json): (st: SurveyState)
    ensures NormalState(st)
    ensures st.completed <==> Present(Member(input, "completed"))
    ensures st.dismissed <==> Present(Member(input, "dismissed"))
    ensures Member(input, "selectedOptions").Some? && Member(input, "selectedOptions").value.JArr? ==>
      st.selectedOptions == Member(input, "selectedOptions").value.items
    ensures !(Member(input, "selectedOptions").Some? && Member(input, "selectedOptions").value.JArr?) ==>
      st.selectedOptions == []
    ensures Member(input, "inputValue").Some? && Member(input, "inputValue").value.JStr? ==>
      st.inputValue == Member(input, "inputValue").value.s
    ensures !(Member(input, "inputValue").Some? && Member(input, "inputValue").value.JStr?) ==> st.inputValue == ""
    ensures st.answers == (if Present(Member(input, "answers")) then Member(input, "answers").value else JNull)
    ensures st.submittedAt == (if Present(Member(input, "submittedAt")) then Member(input, "submittedAt").value else JNull)
  {
    var v := Member(input, "inputValue");
    SurveyState(
      ArrayOr(Member(input, "selectedOptions")),
      if v.Some? && v.value.JStr? then v.value.s else "",
      Present(Member(input, "completed")),
      Present(Member(input, "dismissed")),
      Or(Member(input, "answers"), JNull),
      Or(Member(input, "submittedAt"), JNull))
  }

  function EncodeState(st: SurveyState): Json
  {
    JObj(map[
      "selectedOptions" := JArr(st.selectedOptions),
      "inputValue" := JStr(st.inputValue),
      "completed" := JBool(st.completed),
      "dismissed" := JBool(st.dismissed),
      "answers" := st.answers,
      "submittedAt" := st.submittedAt])
  }

  /** Each property of a saved state reads back as saved. */
  lemma EncodedStateMembers(st: SurveyState)
    ensures Member(EncodeState(st), "selectedOptions") == Some(JArr(st.selectedOptions))
    ensures Member(EncodeState(st), "inputValue") == Some(JStr(st.inputValue))
    ensures Member(EncodeState(st), "completed") == Some(JBool(st.completed))
    ensures Member(EncodeState(st), "dismissed") == Some(JBool(st.dismissed))
    ensures Member(EncodeState(st), "answers") == Some(st.answers)
    ensures Member(EncodeState(st), "submittedAt") == Some(st.submittedAt)
  {
    assert "completed" != "dismissed" by {
      assert "completed"[0] != "dismissed"[0];
    }
  }

  lemma StateRoundTrip(st: SurveyState)
    requires NormalState(st)
    ensures NormalizeState(EncodeState(st)) == st
  {
    EncodedStateMembers(st);
  }

  /** The state a freshly requested survey starts in (`state = {}`). */
  function InitialState(): (st: SurveyState)
    ensures !st.completed && !st.dismissed && st.answers == JNull
  {
    NormalizeState(JObj(map[]))
  }

  /** The saved `{config, state}` payload. */
  function Payload(c: SurveyConfig, st: SurveyState): Json
  {
    JObj(map["config" := EncodeConfig(c), "state" := EncodeState(st)])
  }

  /** `payload?.config || {}` and `payload?.state || {}` in `loadChat`. */
  function Section(payload: Json, key: string): Json
  {
    Or(Member(payload, key), JObj(map[]))
  }

  /** A saved payload reloads into the configuration and state it was saved
      with. */
  lemma PayloadRoundTrip(c: SurveyConfig, st: SurveyState)
    requires NormalConfig(c) && NormalState(st)
    ensures NormalizeConfig(Section(Payload(c, st), "config")) == c
    ensures NormalizeState(Section(Payload(c, st), "state")) == st
  {
    assert Section(Payload(c, st), "config") == EncodeConfig(c);
    assert Section(Payload(c, st), "state") == EncodeState(st);
    ConfigRoundTrip(c);
    StateRoundTrip(st);
  }

  /** `formatSurveyAnswerSummary(config, answers)`; `None` is the exception
      it raises when an input answer's `inputValue` is truthy but not a
      string (`value.trim` is not a function). */
  function FormatSurveyAnswerSummary(answers: Json): (r: Option<string>)
    ensures r.None? <==>
      Truthy(answers) && Member(answers, "type") == Some(JStr(InputType)) &&
      Present(Member(answers, "inputValue")) && !Member(answers, "inputValue").value.JStr?
    ensures !Truthy(answers) ==> r == Some("")
  {
    if !Truthy(answers) then Some("")
    else if Member(answers, "type") == Some(JStr(MultipleChoice)) then
      var selections := ArrayOr(Member(answers, "selectedOptions"));
      if |selections| == 0 then Some("선택한 옵션이 없습니다.")
      else Some("**선택한 옵션**\n" + JoinStrings(Bullets(selections), "\n"))
    else if Member(answers, "type") == Some(JStr(InputType)) then
      var value := TextOr(Member(answers, "inputValue"));
      if !value.JStr? then None
      else if Trim(value.s) == "" then Some("입력한 응답이 없습니다.")
      else Some("**응답 내용**\n" + value.s)
    else Some("")
  }

  /** `selections.map(option => `- ${option}`)`. */
  function Bullets(selections: seq<Json>): (r: seq<string>)
    ensures |r| == |selections|
  {
    seq(|selections|, i requires 0 <= i < |selections| => "- " + Str(selections[i]))
  }

  /** The summary of a multiple-choice answer lists every selection as a
      bullet. */
  lemma SummaryListsSelections(answers: Json, i: nat)
    requires Truthy(answers) && Member(answers, "type") == Some(JStr(MultipleChoice))
    requires i < |ArrayOr(Member(answers, "selectedOptions"))|
    ensures FormatSurveyAnswerSummary(answers).Some?
    ensures Occurs("- " + Str(ArrayOr(Member(answers, "selectedOptions"))[i]), FormatSurveyAnswerSummary(answers).value)
  {
    var selections := ArrayOr(Member(answers, "selectedOptions"));
    JoinMentionsEach(Bullets(selections), "\n", i);
    OccursInSuffix(Bullets(selections)[i], "**선택한 옵션**\n", JoinStrings(Bullets(selections), "\n"));
  }

  function Header(c: SurveyConfig): string
  {
    if Truthy(c.title) then "[설문 응답 - " + Str(c.title) + "]" else "[설문 응답]"
  }

  function PromptLine(c: SurveyConfig): string
  {
    if Truthy(c.prompt) then Str(c.prompt) + "\n" else ""
  }

  /** `buildSurveyAnswerMessage(config, answers)`: the user turn sent after a
      submission; `None` (null, nothing is sent) for a falsy answer or an
      answer type other than the two known ones. */
  function BuildSurveyAnswerMessage(c: SurveyConfig, answers: Json): (r: Option<string>)
    ensures r.None? <==>
      !Truthy(answers) ||
      (Member(answers, "type") != Some(JStr(MultipleChoice)) && Member(answers, "type") != Some(JStr(InputType)))
    ensures r.Some? ==> |Header(c)| < |r.value| && r.value[..|Header(c)|] == Header(c)
  {
    if !Truthy(answers) then None
    else
      var lead := Header(c) + "\n" + PromptLine(c);
      if Member(answers, "type") == Some(JStr(MultipleChoice)) then
        var selections := ArrayOr(Member(answers, "selectedOptions"));
        var line := if |selections| > 0 then JoinStrings(JoinParts(selections), ", ") else "선택 없음";
        assert (lead + "선택한 옵션: " + line)[..|Header(c)|] == Header(c);
        Some(lead + "선택한 옵션: " + line)
      else if Member(answers, "type") == Some(JStr(InputType)) then
        var line := Str(TextOr(Member(answers, "inputValue")));
        assert (lead + "응답 내용: " + line)[..|Header(c)|] == Header(c);
        Some(lead + "응답 내용: " + line)
      else None
  }

  /** The message for a multiple-choice answer names every selection (as
      `join` renders it), or says `선택 없음` when there is none. */
  lemma MessageListsSelections(c: SurveyConfig, answers: Json)
    requires Truthy(answers) && Member(answers, "type") == Some(JStr(MultipleChoice))
    ensures BuildSurveyAnswerMessage(c, answers).Some?
    ensures forall i :: 0 <= i < |ArrayOr(Member(answers, "selectedOptions"))| ==>
      Occurs(JoinParts(ArrayOr(Member(answers, "selectedOptions")))[i], BuildSurveyAnswerMessage(c, answers).value)
    ensures ArrayOr(Member(answers, "selectedOptions")) == [] ==>
      Occurs("선택 없음", BuildSurveyAnswerMessage(c, answers).value)
  {
    var selections := ArrayOr(Member(answers, "selectedOptions"));
    var lead := Header(c) + "\n" + PromptLine(c) + "선택한 옵션: ";
    var m := BuildSurveyAnswerMessage(c, answers).value;
    if selections == [] {
      assert m == lead + "선택 없음";
      assert m[|lead|..|lead| + |"선택 없음"|] == "선택 없음";
      assert OccursAt("선택 없음", m, |lead|);
    } else {
      var parts := JoinParts(selections);
      assert m == lead + JoinStrings(parts, ", ");
      forall i | 0 <= i < |selections|
        ensures Occurs(parts[i], m)
      {
        JoinMentionsEach(parts, ", ", i);
        OccursInSuffix(parts[i], lead, JoinStrings(parts, ", "));
      }
    }
  }

  /** The message for an input answer ends with the typed text
      (`answers.inputValue || ''`). */
  lemma MessageCarriesInput(c: SurveyConfig, answers: Json)
    requires Truthy(answers) && Member(answers, "type") == Some(JStr(InputType))
    ensures BuildSurveyAnswerMessage(c, answers).Some?
    ensures var line := "응답 내용: " + Str(TextOr(Member(answers, "inputValue")));
      var m := BuildSurveyAnswerMessage(c, answers).value;
      |line| <= |m| && m[|m| - |line|..] == line
    ensures Occurs(Str(TextOr(Member(answers, "inputValue"))), BuildSurveyAnswerMessage(c, answers).value)
  {
    var text := Str(TextOr(Member(answers, "inputValue")));
    var head := Header(c) + "\n" + PromptLine(c);
    var lead := head + "응답 내용: ";
    var m := BuildSurveyAnswerMessage(c, answers).value;
    assert m == head + ("응답 내용: " + text);
    assert m[|m| - |"응답 내용: " + text|..] == "응답 내용: " + text;
    assert m == lead + text;
    assert m[|lead|..|lead| + |text|] == text;
    assert OccursAt(text, m, |lead|);
  }

  /** `handleSurveySubmit`: the answer it submits, or `None` when it returns
      early. `completed` is the widget's `data-completed` flag, `checked`
      the values of the checked option inputs in document order and `text`
      the textarea's value. */
  function CheckSubmission(c: SurveyConfig, completed: bool, checked: seq<string>, text: string): (r: Option<Json>)
    ensures r.None? <==>
      completed ||
      (c.kind == JStr(MultipleChoice) && c.required && checked == []) ||
      (c.kind != JStr(MultipleChoice) && c.required && Trim(text) == "")
    ensures r.Some? && c.kind == JStr(MultipleChoice) ==>
      Member(r.value, "type") == Some(JStr(MultipleChoice)) &&
      ArrayOr(Member(r.value, "selectedOptions")) == Strings(checked)
    ensures r.Some? && c.kind != JStr(MultipleChoice) ==>
      Member(r.value, "type") == Some(JStr(InputType)) &&
      Member(r.value, "inputValue") == Some(JStr(Trim(text)))
  {
    if completed then None
    else if c.kind == JStr(MultipleChoice) then
      if c.required && |checked| == 0 then None
      else Some(JObj(map["type" := JStr(MultipleChoice), "selectedOptions" := JArr(Strings(checked))]))
    else
      var value := Trim(text);
      if c.required && |value| == 0 then None
      else Some(JObj(map["type" := JStr(InputType), "inputValue" := JStr(value)]))
  }

  function Strings(ss: seq<string>): (r: seq<Json>)
    ensures |r| == |ss|
    ensures forall i :: 0 <= i < |ss| ==> r[i] == JStr(ss[i])
  {
    seq(|ss|, i requires 0 <= i < |ss| => JStr(ss[i]))
  }

  /** Whatever passes validation has a summary (the rendering cannot throw)
      and yields a message to send, and a multiple-choice message names every
      checked value. */
  lemma AcceptedSubmissionIsSent(c: SurveyConfig, completed: bool, checked: seq<string>, text: string)
    requires CheckSubmission(c, completed, checked, text).Some?
    ensures FormatSurveyAnswerSummary(CheckSubmission(c, completed, checked, text).value).Some?
    ensures BuildSurveyAnswerMessage(c, CheckSubmission(c, completed, checked, text).value).Some?
    ensures c.kind == JStr(MultipleChoice) ==>
      forall i :: 0 <= i < |checked| ==>
        Occurs(checked[i], BuildSurveyAnswerMessage(c, CheckSubmission(c, completed, checked, text).value).value)
    ensures c.kind != JStr(MultipleChoice) ==>
      Occurs(Trim(text), BuildSurveyAnswerMessage(c, CheckSubmission(c, completed, checked, text).value).value)
  {
    var a := CheckSubmission(c, completed, checked, text).value;
    if c.kind == JStr(MultipleChoice) {
      MessageListsSelections(c, a);
      var selections := ArrayOr(Member(a, "selectedOptions"));
      forall i | 0 <= i < |checked|
        ensures JoinParts(selections)[i] == checked[i]
      {
        assert selections[i] == JStr(checked[i]);
      }
    } else {
      MessageCarriesInput(c, a);
      assert Str(TextOr(Member(a, "inputValue"))) == Trim(text);
    }
  }

  /** The properties of `payload.config || {}` (or `payload.state`) that the
      spread copies. */
  function SectionBase(section: Option<Json>): map<string, Json>
  {
    if Present(section) then Spread(section.value) else map[]
  }

  /** `updateSurveyMessageState` after the stored payload parsed: a
      non-object payload becomes `{}`, then `config` and `state` are each
      replaced by the spread of the old section and the patch, when a patch
      for that section is given. Properties set on an array are not
      serialised, so an array payload is saved back unchanged. */
  function MergeSurveyPayload(payload: Json, configPatch: Option<map<string, Json>>, statePatch: Option<map<string, Json>>): (r: Json)
    ensures payload.JArr? ==> r == payload
    ensures !payload.JArr? ==> r.JObj?
  {
    if payload.JArr? then payload
    else
      var base := if payload.JObj? then payload.fields else map[];
      var withConfig :=
        if configPatch.Some? then base["config" := JObj(SectionBase(Member(payload, "config")) + configPatch.value)]
        else base;
      var withState :=
        if statePatch.Some? then withConfig["state" := JObj(SectionBase(Member(payload, "state")) + statePatch.value)]
        else withConfig;
      JObj(withState)
  }

  /** A state-only patch leaves the stored configuration exactly as it was,
      and every other top-level property of an object payload too. */
  lemma StatePatchKeepsConfig(payload: Json, patch: map<string, Json>, key: string)
    requires key != "state"
    ensures Member(MergeSurveyPayload(payload, None, Some(patch)), key) == Member(payload, key)
  {
  }

  /** The state merge is one level deep and right-biased: a patched state
      key takes the patch's value, every other key of an object state keeps
      its old value (`selectedOptions` survives an `inputValue` patch). */
  lemma StatePatchKeepsOtherKeys(payload: Json, patch: map<string, Json>, key: string)
    requires payload.JObj?
    ensures Member(MergeSurveyPayload(payload, None, Some(patch)), "state").Some?
    ensures key in patch ==>
      Member(Member(MergeSurveyPayload(payload, None, Some(patch)), "state").value, key) == Some(patch[key])
    ensures key !in patch && Member(payload, "state").Some? && Member(payload, "state").value.JObj? ==>
      Member(Member(MergeSurveyPayload(payload, None, Some(patch)), "state").value, key) ==
      Member(Member(payload, "state").value, key)
  {
  }

  /** The patch `submitSurveyResponse` stores. */
  function CompletionPatch(answers: Json, submittedAt: nat): map<string, Json>
  {
    map["completed" := JBool(true), "answers" := answers, "submittedAt" := JNum(submittedAt)]
  }

  /** A state patch on a saved payload: the configuration section is the
      saved one and the state section is the saved state with the patch laid
      over it. */
  lemma StatePatchSections(c: SurveyConfig, st: SurveyState, patch: map<string, Json>)
    ensures Section(MergeSurveyPayload(Payload(c, st), None, Some(patch)), "config") == EncodeConfig(c)
    ensures Section(MergeSurveyPayload(Payload(c, st), None, Some(patch)), "state") == JObj(EncodeState(st).fields + patch)
  {
    assert SectionBase(Member(Payload(c, st), "state")) == EncodeState(st).fields;
  }

  /** The completion patch sets the three completion fields and keeps the
      selections and typed text. */
  lemma CompletedState(st: SurveyState, answers: Json, submittedAt: nat)
    requires Truthy(answers) && submittedAt > 0
    ensures NormalizeState(JObj(EncodeState(st).fields + CompletionPatch(answers, submittedAt))) ==
      st.(completed := true, answers := answers, submittedAt := JNum(submittedAt))
  {
  }

  /** After completion the stored survey reloads completed, with the answers
      and submission time it was given and its selections and typed text
      unchanged. */
  lemma CompletionRecorded(c: SurveyConfig, st: SurveyState, answers: Json, submittedAt: nat)
    requires NormalConfig(c) && Truthy(answers) && submittedAt > 0
    ensures NormalizeConfig(Section(MergeSurveyPayload(Payload(c, st), None, Some(CompletionPatch(answers, submittedAt))), "config")) == c
    ensures NormalizeState(Section(MergeSurveyPayload(Payload(c, st), None, Some(CompletionPatch(answers, submittedAt))), "state")) ==
      st.(completed := true, answers := answers, submittedAt := JNum(submittedAt))
  {
    StatePatchSections(c, st, CompletionPatch(answers, submittedAt));
    CompletedState(st, answers, submittedAt);
    ConfigRoundTrip(c);
  }

  /** Whether `appendSurveyMessage` builds the widget (and, on the save path,
      saves the record): a non-empty prompt, not dismissed, at least one
      option for a multiple-choice survey, and a summary that renders. */
  function Renders(c: SurveyConfig, st: SurveyState): (r: bool)
    ensures !Truthy(c.prompt) ==> !r
    ensures st.dismissed ==> !r
    ensures c.kind == JStr(MultipleChoice) && c.options == [] ==> !r
    ensures Truthy(st.answers) && FormatSurveyAnswerSummary(st.answers).None? ==> !r
  {
    Truthy(c.prompt) && !st.dismissed &&
    !(c.kind == JStr(MultipleChoice) && c.options == []) &&
    (!Truthy(st.answers) || FormatSurveyAnswerSummary(st.answers).Some?)
  }
}
