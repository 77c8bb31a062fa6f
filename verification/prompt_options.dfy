/** The two-option chooser (`prompt_options` records): the normalised widget
    state, the stored payload `{options, selectedIndex, completed, dismissed}`,
    the shallow read-modify-write merge of `updatePromptOptionsMessageState`
    and the patches the chooser's select, confirm and cancel handlers apply. */
module PromptOptions {
  import opened Wrappers
  import opened Text
  import opened Json

  /** `{selectedIndex, completed, dismissed}` after normalisation. */
  datatype ChooserState = ChooserState(selectedIndex: Option<int>, completed: bool, dismissed: bool)

  /** `{selectedIndex: typeof s === 'number' ? s : null, completed:
      Boolean(c), dismissed: Boolean(d)}`. */
  function Normalize(selectedIndex: Option<Json>, completed: Option<Json>, dismissed: Option<Json>): (r: ChooserState)
    ensures r.selectedIndex.Some? <==> selectedIndex.Some? && selectedIndex.value.JNum?
    ensures r.selectedIndex.Some? ==> selectedIndex.value == JNum(r.selectedIndex.value)
    ensures r.completed <==> Present(completed)
    ensures r.dismissed <==> Present(dismissed)
  {
    ChooserState(
      if selectedIndex.Some? && selectedIndex.value.JNum? then Some(selectedIndex.value.n) else None,
      Present(completed),
      Present(dismissed))
  }

  /** The state a stored payload renders with (the literal `loadChat` builds
      from `parsed`, normalised again by `appendPromptOptionsMessage`). */
  function StateOf(payload: Json): ChooserState
  {
    Normalize(Member(payload, "selectedIndex"), Member(payload, "completed"), Member(payload, "dismissed"))
  }

  function IndexJson(i: Option<int>): Json
  {
    if i.Some? then JNum(i.value) else JNull
  }

  /** The payload `appendPromptOptionsMessage` saves. */
  function Payload(options: seq<Json>, st: ChooserState): Json
  {
    JObj(map[
      "options" := JArr(options),
      "selectedIndex" := IndexJson(st.selectedIndex),
      "completed" := JBool(st.completed),
      "dismissed" := JBool(st.dismissed)])
  }

  /** A saved payload reloads into the state and options it was saved with. */
  lemma PayloadRoundTrip(options: seq<Json>, st: ChooserState)
    ensures StateOf(Payload(options, st)) == st
    ensures Member(Payload(options, st), "options") == Some(JArr(options))
  {
  }

  /** The properties the merge starts from: `payload` itself when it is an
      object (arrays included), `{}` for `null` and every primitive. */
  function ObjectBase(payload: Json): map<string, Json>
  {
    if payload.JObj? || payload.JArr? then Spread(payload) else map[]
  }

  /** `{...payload, ...updates}`. */
  function Merge(payload: Json, updates: map<string, Json>): (r: Json)
    ensures r.JObj?
  {
    JObj(ObjectBase(payload) + updates)
  }

  /** The merge is shallow and right-biased: a patched key takes the patch's
      value and every other key of an object payload keeps its old value, so
      `options` survives every state patch. */
  lemma MergeKeepsUnpatchedKeys(payload: Json, updates: map<string, Json>, key: string)
    requires payload.JObj?
    ensures key in updates ==> Member(Merge(payload, updates), key) == Some(updates[key])
    ensures key !in updates ==> Member(Merge(payload, updates), key) == Member(payload, key)
  {
  }

  /** The patch a click on option `i` stores. */
  function SelectPatch(i: int): map<string, Json>
  {
    map["selectedIndex" := JNum(i), "dismissed" := JBool(false)]
  }

  /** The patch confirming option `i` stores. */
  function ConfirmPatch(i: int): map<string, Json>
  {
    map["completed" := JBool(true), "selectedIndex" := JNum(i), "dismissed" := JBool(false)]
  }

  /** The patch cancelling the chooser stores. */
  function CancelPatch(): map<string, Json>
  {
    map["dismissed" := JBool(true)]
  }

  /** Whatever payload was stored, confirming leaves it completed, not
      dismissed, with the confirmed index selected. */
  lemma ConfirmedState(payload: Json, i: int)
    ensures StateOf(Merge(payload, ConfirmPatch(i))) == ChooserState(Some(i), true, false)
  {
    assert "completed" != "dismissed" by {
      assert "completed"[0] != "dismissed"[0];
    }
    var patch := ConfirmPatch(i);
    assert patch["selectedIndex"] == JNum(i) && patch["completed"] == JBool(true) && patch["dismissed"] == JBool(false);
  }

  /** Whatever payload was stored, cancelling leaves it dismissed and keeps
      its selection and completion. */
  lemma CancelledState(payload: Json)
    ensures StateOf(Merge(payload, CancelPatch())).dismissed
    ensures StateOf(Merge(payload, CancelPatch())).selectedIndex == StateOf(payload).selectedIndex
    ensures StateOf(Merge(payload, CancelPatch())).completed == StateOf(payload).completed
  {
    NamedKeysOfBase(payload);
  }

  /** A selection changes the index and clears `dismissed`, and never the
      stored completion flag. */
  lemma SelectedState(payload: Json, i: int)
    ensures StateOf(Merge(payload, SelectPatch(i))) == StateOf(payload).(selectedIndex := Some(i), dismissed := false)
  {
    NamedKeysOfBase(payload);
  }

  /** The state keys are not index keys: the merge base has them exactly when
      the payload has them. */
  lemma NamedKeysOfBase(payload: Json)
    ensures forall key :: key in {"selectedIndex", "completed", "dismissed"} ==>
      (key in ObjectBase(payload) <==> Member(payload, key).Some?) &&
      (key in ObjectBase(payload) ==> ObjectBase(payload)[key] == Member(payload, key).value)
  {
    SpreadNamedKey(payload, "selectedIndex");
    SpreadNamedKey(payload, "completed");
    SpreadNamedKey(payload, "dismissed");
  }

  /** The synthetic user turn confirming an option:
      `"${option.title}" 옵션을 선택했습니다.` */
  function ChoiceMessage(title: Option<Json>): string
  {
    "\"" + Interp(title) + "\" 옵션을 선택했습니다."
  }
}
