/** Sending subtitle lines to Anki through AnkiConnect (`src/lib/anki.ts`):
    how a field's new value is merged with the old one, how a reply's errors
    are gathered, how the configured deck, model and fields are checked,
    and how each group of lines becomes one note. Every reply of AnkiConnect
    and every clip of audio is an input; the requests that change Anki are
    recorded in order. */
module Anki {
  import opened Wrappers
  import opened JsText
  import opened Ordered
  import opened Util
  import opened General
  import opened Settings
  import opened Stores
  import Ffmpeg

  // ---------------------------------------------------------------------
  // getNewFieldValue
  // ---------------------------------------------------------------------

  /** `<br/>` between two values, only when both are non-empty. */
  function Separator(a: string, b: string): (r: string)
    ensures r == "" || r == "<br/>"
    ensures r == "<br/>" <==> a != "" && b != ""
  {
    if a != "" && b != "" then "<br/>" else ""
  }

  /** `getNewFieldValue(fieldMode, existingFieldValue, newFieldValue)`:
      insert the new value before or after the existing one, or replace it. */
  function NewFieldValue(mode: ExportFieldMode, existing: string, newValue: string): (r: string)
    ensures mode == Replace ==> r == newValue
    ensures mode == Before ==> StartsWith(r, newValue) && EndsWith(r, existing)
    ensures mode == After ==> StartsWith(r, existing) && EndsWith(r, newValue)
    ensures mode != Replace ==> |r| == |existing| + |newValue| + |Separator(existing, newValue)|
    ensures existing == "" ==> r == newValue
    ensures newValue == "" && mode != Replace ==> r == existing
  {
    match mode
    case Before =>
      var r := newValue + Separator(newValue, existing) + existing;
      assert r[..|newValue|] == newValue;
      assert r[|r| - |existing|..] == existing;
      r
    case After =>
      var r := existing + Separator(existing, newValue) + newValue;
      assert r[..|existing|] == existing;
      assert r[|r| - |newValue|..] == newValue;
      r
    case Replace => newValue
  }

  /** Inserting before and inserting after place the two values on opposite
      sides of the same separator. */
  lemma BeforeMirrorsAfter(a: string, b: string)
    ensures NewFieldValue(Before, a, b) == NewFieldValue(After, b, a)
  {
  }

  // ---------------------------------------------------------------------
  // request
  // ---------------------------------------------------------------------

  /** One action of a `multi` request; `key` is the API key it carries
      (`""` for none). */
  datatype SubAction = SubAction(action: string, key: string)

  /** A request body: its action and, for `multi`, its actions. */
  datatype RequestBody = RequestBody(action: string, actions: seq<SubAction>)

  /** What is posted: the body, the protocol version and the key, if set. */
  datatype Posted = Posted(body: RequestBody, version: int, key: Option<string>)

  /** The body as `request` posts it: a set key is copied into every action
      of a `multi` request, and added to the request itself. */
  method PostedBody(body: RequestBody, key: string) returns (p: Posted)
    ensures p.version == 6
    ensures p.key == if key != "" then Some(key) else None
    ensures p.body.action == body.action && |p.body.actions| == |body.actions|
    ensures forall i :: 0 <= i < |body.actions| ==>
              p.body.actions[i].action == body.actions[i].action &&
              p.body.actions[i].key == if body.action == "multi" && key != "" then key else body.actions[i].key
  {
    var actions := body.actions;
    if body.action == "multi" && key != "" {
      var index := 0;
      while index < |actions|
        invariant 0 <= index <= |actions| && |actions| == |body.actions|
        invariant forall i :: 0 <= i < |actions| ==> actions[i].action == body.actions[i].action
        invariant forall i :: 0 <= i < index ==> actions[i].key == key
        invariant forall i :: index <= i < |actions| ==> actions[i] == body.actions[i]
      {
        actions := actions[index := actions[index].(key := key)];
        index := index + 1;
      }
    }
    p := Posted(RequestBody(body.action, actions), 6, if key != "" then Some(key) else None);
  }

  /** What the AnkiConnect endpoint answers: an HTTP failure, or a JSON
      reply with its `error` (`""` for none), the `error` of every element
      of `result` when `result` is an array, and the result itself. */
  datatype Reply<T> = HttpFailure(status: nat) | Answer(error: string, resultErrors: Option<seq<string>>, result: T)

  /** The errors a reply raises: its own error, then, for `multi`, those of
      its results, each non-empty one once, in first-seen order. */
  function ReplyErrors(error: string, isMulti: bool, resultErrors: Option<seq<string>>): seq<string> {
    AddAll(if error != "" then [error] else [],
           if isMulti && resultErrors.Some? then NonEmpty(resultErrors.value) else [])
  }

  /** The non-empty strings of `xs`, in order. */
  function NonEmpty(xs: seq<string>): (r: seq<string>)
    ensures forall s :: s in r <==> s in xs && s != ""
  {
    if xs == [] then [] else (if xs[0] != "" then [xs[0]] else []) + NonEmpty(xs[1..])
  }

  /** The loop of `request` that gathers the errors into a `Set`. */
  method GatherErrors(error: string, isMulti: bool, resultErrors: Option<seq<string>>) returns (errors: seq<string>)
    ensures errors == ReplyErrors(error, isMulti, resultErrors)
  {
    errors := [];
    if error != "" {
      errors := Add(errors, error);
    }
    if isMulti && resultErrors.Some? {
      var results := resultErrors.value;
      var index := 0;
      assert results[index..] == results;
      while index < |results|
        invariant 0 <= index <= |results|
        invariant AddAll(errors, NonEmpty(results[index..])) == ReplyErrors(error, isMulti, resultErrors)
      {
        GatherStep(errors, results, index);
        if results[index] != "" {
          errors := Add(errors, results[index]);
        }
        index := index + 1;
      }
      assert results[index..] == [];
    }
  }

  /** One turn of the gathering loop: the error at `index`, when not empty,
      is added before the rest. */
  lemma GatherStep(errors: seq<string>, results: seq<string>, index: nat)
    requires index < |results|
    ensures AddAll(errors, NonEmpty(results[index..])) ==
            AddAll(if results[index] != "" then Add(errors, results[index]) else errors, NonEmpty(results[index + 1..]))
  {
    var x := results[index];
    var rest := NonEmpty(results[index + 1..]);
    assert results[index..] == [x] + results[index + 1..];
    assert NonEmpty(results[index..]) == (if x != "" then [x] else []) + rest;
    if x != "" {
      assert ([x] + rest)[1..] == rest;
    } else {
      assert [] + rest == rest;
    }
  }

  /** How `request` settles for a reply: it throws on an HTTP failure, or
      with the gathered errors joined by `; ` when there are any; otherwise
      it gives the result. */
  function RequestResult<T>(isMulti: bool, reply: Reply<T>): (r: Result<T>)
    ensures reply.HttpFailure? ==> r == Err("Request failed with status " + NatToString(reply.status))
    ensures reply.Answer? ==> (r.Ok? <==> ReplyErrors(reply.error, isMulti, reply.resultErrors) == [])
    ensures reply.Answer? && r.Ok? ==> r.value == reply.result
  {
    match reply
    case HttpFailure(status) => Err("Request failed with status " + NatToString(status))
    case Answer(error, resultErrors, result) =>
      var errors := ReplyErrors(error, isMulti, resultErrors);
      if errors == [] then Ok(result) else Err(Join(errors, "; "))
  }

  /** Every error in a failing reply's message is listed once and none is
      empty; a reply fails exactly when it carries a non-empty error. */
  lemma {:induction false} ReplyErrorsProperties(error: string, isMulti: bool, resultErrors: Option<seq<string>>)
    ensures var errors := ReplyErrors(error, isMulti, resultErrors);
            NoDuplicates(errors) &&
            (forall e :: e in errors <==>
               e != "" && (e == error || (isMulti && resultErrors.Some? && e in resultErrors.value))) &&
            (errors == [] <==>
               error == "" && (!isMulti || resultErrors.None? || forall e :: e in resultErrors.value ==> e == ""))
  {
    var first: seq<string> := if error != "" then [error] else [];
    var rest := if isMulti && resultErrors.Some? then NonEmpty(resultErrors.value) else [];
    AddAllProperties(first, rest);
  }

  // ---------------------------------------------------------------------
  // Permission, the module's key and the requests that change Anki
  // ---------------------------------------------------------------------

  /** The requests that change Anki's state or view, in the order sent. */
  datatype AnkiCall =
    | GuiSelectNote(noteId: int)
    | StoreMediaFile(data: string, filename: string)
    | AddNote(note: Note)
    | UpdateNote(note: Note)

  /** `exportCardNoteData`: the fields in the order they are written, the
      tags, the audio attachments, and the note id (update) or deck, model
      and duplicate options (add). */
  datatype Note = Note(
    fields: OrderedMap<string, string>,
    tags: seq<string>,
    audio: seq<AudioAttachment>,
    id: Option<int>,
    deckName: Option<string>,
    modelName: Option<string>,
    options: Option<DuplicateOptions>)

  /** `exportCardAudioField`. */
  datatype AudioAttachment = AudioAttachment(data: string, deleteExisting: bool, filename: string, fields: seq<string>)

  /** `exportCardOptions`; `scope` and `scopeOptions` are absent when
      duplicates are allowed. */
  datatype DuplicateOptions = DuplicateOptions(allowDuplicate: bool, scope: Option<string>, scopeOptions: Option<ScopeOptions>)

  datatype ScopeOptions = ScopeOptions(checkChildren: bool, deckName: Option<string>)

  /** How the permission request settles: a thrown message, or the reply. */
  datatype PermissionReply = PermissionText | PermissionAnswer(granted: bool)

  /** The module's state: whether permission was granted, the API key, and
      the requests sent that change Anki. */
  class AnkiClient {
    var permissionGranted: bool
    var key: string
    var calls: seq<AnkiCall>

    constructor ()
      ensures !permissionGranted && key == "" && calls == []
    {
      permissionGranted := false;
      key := "";
      calls := [];
    }

    /** `setApiKey(value)`. */
    method SetApiKey(value: string)
      modifies this
      ensures key == value && permissionGranted == old(permissionGranted) && calls == old(calls)
    {
      key := value;
    }
  }


  /** The text that identifies AnkiConnect Android's reply to a permission
      request. */
  const AndroidMarker: string := "com.google.gson.stream.MalformedJsonException"

  /** `s.includes(part)`. */
  predicate Contains(s: string, part: string)
    decreases |s|
  {
    StartsWith(s, part) || (s != [] && Contains(s[1..], part))
  }

  /** The permission request failed with AnkiConnect Android's JSON error. */
  predicate AndroidFailure(reply: Result<PermissionReply>) {
    reply.Err? && Contains(reply.message, AndroidMarker)
  }

  /** How `requestPermission` settles once `reply` is how its own request
      settled. */
  function PermissionOutcome(granted: bool, reply: Result<PermissionReply>): (r: Outcome)
    ensures r.Pass? <==> granted || AndroidFailure(reply) ||
                          (reply.Ok? && (reply.value.PermissionText? || reply.value.granted))
    ensures r.Fail? && reply.Err? ==> r.message == reply.message
    ensures r.Fail? && reply.Ok? ==> r.message == "Anki permission not granted"
  {
    if granted then Pass
    else if reply.Err? then (if AndroidFailure(reply) then Pass else Fail(reply.message))
    else if reply.value.PermissionAnswer? && !reply.value.granted then Fail("Anki permission not granted")
    else Pass
  }

  /** `requestPermission(ankiUrl)`: nothing once granted; otherwise asks,
      remembers a grant, and marks the connection as AnkiConnect Android
      when the request failed with its JSON error. */
  method RequestPermission(st: AppState, client: AnkiClient, reply: Result<PermissionReply>) returns (r: Outcome)
    modifies st, client
    ensures r == PermissionOutcome(old(client.permissionGranted), reply)
    ensures client.permissionGranted == (old(client.permissionGranted) || r.Pass?)
    ensures client.key == old(client.key) && client.calls == old(client.calls)
    ensures st.values == if !old(client.permissionGranted) && AndroidFailure(reply)
                         then old(st.values).(isAnkiconnectAndroid := true) else old(st.values)
  {
    if client.permissionGranted {
      return Pass;
    }
    var result: PermissionReply;
    if reply.Err? {
      if Contains(reply.message, AndroidMarker) {
        st.values := st.values.(isAnkiconnectAndroid := true);
        result := PermissionAnswer(true);
      } else {
        return Fail(reply.message);
      }
    } else {
      result := reply.value;
    }
    if result.PermissionAnswer? && !result.granted {
      return Fail("Anki permission not granted");
    }
    client.permissionGranted := true;
    r := Pass;
  }

  // ---------------------------------------------------------------------
  // verifyAnkiSettings, resetAnkiSettings
  // ---------------------------------------------------------------------

  /** The settings after `resetAnkiSettings`: no deck, model, sound field or
      sentence field, and nothing else changed. */
  function ResetSettings(s: Settings): (r: Settings)
    ensures r.ankiDeck == "" && r.ankiModel == "" && r.ankiSoundField == "" && r.ankiSentenceField == ""
    ensures r.(ankiDeck := s.ankiDeck, ankiModel := s.ankiModel, ankiSoundField := s.ankiSoundField,
               ankiSentenceField := s.ankiSentenceField) == s
  {
    s.(ankiDeck := "", ankiModel := "", ankiSoundField := "", ankiSentenceField := "")
  }

  /** `resetAnkiSettings()`: clears the four settings and forgets the
      permission. */
  method ResetAnkiSettings(st: AppState, client: AnkiClient)
    modifies st, client
    ensures st.values == old(st.values).(settings := ResetSettings(old(st.values.settings)))
    ensures !client.permissionGranted && client.key == old(client.key) && client.calls == old(client.calls)
  {
    st.values := st.values.(settings := ResetSettings(st.values.settings));
    client.permissionGranted := false;
  }

  /** `VerificationResult`. */
  datatype Verification = Verification(valid: bool, fields: seq<string>)

  /** What `verifyAnkiSettings` finds: the verdict, which of the deck,
      model, sentence field and sound field settings it clears, and the
      message of a failed request, which also forgets the permission. */
  datatype VerifyRun = VerifyRun(verdict: Verification, clearDeck: bool, clearModel: bool,
                                 clearSentenceField: bool, clearSoundField: bool, failure: Option<string>)

  /** Both the deck and the model are among those Anki lists. */
  predicate Found(deck: string, model: string, decksAndModels: Result<(seq<string>, seq<string>)>) {
    decksAndModels.Ok? && deck in decksAndModels.value.0 && model in decksAndModels.value.1
  }

  /** A configured field is one of the model's fields; no field is fine. */
  predicate Listed(field: string, fields: seq<string>) {
    field == "" || field in fields
  }

  /** `verifyAnkiSettings` where `decksAndModels` and `modelFields` are how
      its two requests settle (the first one including the permission
      request before it). */
  function VerifyOf(url: string, deck: string, model: string, sentenceField: string, soundField: string,
                    decksAndModels: Result<(seq<string>, seq<string>)>, modelFields: Result<seq<string>>): (r: VerifyRun)
    ensures var checked := url != "" && deck != "" && model != "";
            var fieldsAsked := checked && Found(deck, model, decksAndModels);
            var fieldsChecked := fieldsAsked && modelFields.Ok?;
            (r.verdict.valid <==> fieldsChecked && Listed(sentenceField, modelFields.value) &&
                                  Listed(soundField, modelFields.value)) &&
            (r.verdict.fields == if fieldsChecked then modelFields.value else []) &&
            (r.failure.Some? <==> checked && (decksAndModels.Err? || (fieldsAsked && modelFields.Err?))) &&
            (r.failure.Some? ==> r.failure.value == "Failed to verify Anki settings: " +
                                   (if decksAndModels.Err? then decksAndModels.message else modelFields.message)) &&
            (r.failure.Some? ==> r.clearDeck && r.clearModel && r.clearSentenceField && r.clearSoundField) &&
            (r.failure.None? ==>
               (r.clearDeck <==> checked && decksAndModels.Ok? && deck !in decksAndModels.value.0) &&
               (r.clearModel <==> checked && decksAndModels.Ok? && model !in decksAndModels.value.1) &&
               (r.clearSentenceField <==> fieldsChecked && !Listed(sentenceField, modelFields.value)) &&
               (r.clearSoundField <==> fieldsChecked && !Listed(soundField, modelFields.value)))
  {
    if url == "" || deck == "" || model == "" then VerifyRun(Verification(false, []), false, false, false, false, None)
    else if decksAndModels.Err? then
      VerifyRun(Verification(false, []), true, true, true, true, Some("Failed to verify Anki settings: " + decksAndModels.message))
    else
      var knownDeck := deck in decksAndModels.value.0;
      var knownModel := model in decksAndModels.value.1;
      if !knownDeck || !knownModel then VerifyRun(Verification(false, []), !knownDeck, !knownModel, false, false, None)
      else if modelFields.Err? then
        VerifyRun(Verification(false, []), true, true, true, true, Some("Failed to verify Anki settings: " + modelFields.message))
      else
        var fields := modelFields.value;
        var sentenceOk := Listed(sentenceField, fields);
        var soundOk := Listed(soundField, fields);
        VerifyRun(Verification(sentenceOk && soundOk, fields), false, false, !sentenceOk, !soundOk, None)
  }

  /** The settings after a verification: the cleared ones are empty. */
  function Cleared(s: Settings, run: VerifyRun): Settings {
    s.(ankiDeck := if run.clearDeck then "" else s.ankiDeck,
       ankiModel := if run.clearModel then "" else s.ankiModel,
       ankiSentenceField := if run.clearSentenceField then "" else s.ankiSentenceField,
       ankiSoundField := if run.clearSoundField then "" else s.ankiSoundField)
  }

  /** A failed verification clears exactly what `resetAnkiSettings` clears. */
  lemma FailureResets(s: Settings, run: VerifyRun)
    requires run.failure.Some? && run.clearDeck && run.clearModel && run.clearSentenceField && run.clearSoundField
    ensures Cleared(s, run) == ResetSettings(s)
  {
  }

  /** A valid configuration is kept as it is. */
  lemma {:induction false} ValidKeepsSettings(url: string, deck: string, model: string, sentenceField: string, soundField: string,
                                              decksAndModels: Result<(seq<string>, seq<string>)>, modelFields: Result<seq<string>>,
                                              s: Settings)
    requires VerifyOf(url, deck, model, sentenceField, soundField, decksAndModels, modelFields).verdict.valid
    ensures Cleared(s, VerifyOf(url, deck, model, sentenceField, soundField, decksAndModels, modelFields)) == s
  {
    var run := VerifyOf(url, deck, model, sentenceField, soundField, decksAndModels, modelFields);
    assert !run.clearDeck && !run.clearModel && !run.clearSentenceField && !run.clearSoundField;
  }

  /** How a request settles once the permission request before it settled
      as `permission`. */
  function AfterPermission<T>(permission: Outcome, reply: Result<T>): (r: Result<T>)
    ensures permission.Fail? ==> r == Err(permission.message)
    ensures permission.Pass? ==> r == reply
  {
    if permission.Fail? then Err(permission.message) else reply
  }

  /** `verifyAnkiSettings(ankiUrl, ankiDeck, ankiModel, ankiSentenceField,
      ankiSoundField)`: the permission and the deck and model lists are
      requested first, the model's fields only when both are known; a
      failing request is caught, resetting the settings. */
  method VerifyAnkiSettings(st: AppState, client: AnkiClient, url: string, deck: string, model: string,
                            sentenceField: string, soundField: string, permission: Result<PermissionReply>,
                            decksAndModels: Result<(seq<string>, seq<string>)>, modelFields: Result<seq<string>>)
    returns (v: Verification)
    modifies st, client
    ensures url == "" || deck == "" || model == "" ==>
              v == Verification(false, []) && st.values == old(st.values) &&
              client.permissionGranted == old(client.permissionGranted)
    ensures url != "" && deck != "" && model != "" ==>
              var asked := PermissionOutcome(old(client.permissionGranted), permission);
              var android := !old(client.permissionGranted) && AndroidFailure(permission);
              var run := VerifyOf(url, deck, model, sentenceField, soundField,
                                  AfterPermission(asked, decksAndModels), modelFields);
              v == run.verdict &&
              st.values.isAnkiconnectAndroid == (old(st.values.isAnkiconnectAndroid) || android) &&
              st.values.settings == Cleared(old(st.values.settings), run) &&
              st.values.lastError == run.failure.GetOr(old(st.values.lastError)) &&
              client.permissionGranted == run.failure.None?
    ensures st.values == old(st.values).(isAnkiconnectAndroid := st.values.isAnkiconnectAndroid,
                                         settings := st.values.settings, lastError := st.values.lastError)
    ensures client.key == old(client.key) && client.calls == old(client.calls)
  {
    if url == "" || deck == "" || model == "" {
      return Verification(false, []);
    }
    var asked := RequestPermission(st, client, permission);
    v := CheckSettings(st, client, url, deck, model, sentenceField, soundField,
                       AfterPermission(asked, decksAndModels), modelFields);
  }

  /** The part of `verifyAnkiSettings` after the permission: the lookups
      and what they clear. */
  method CheckSettings(st: AppState, client: AnkiClient, url: string, deck: string, model: string,
                       sentenceField: string, soundField: string,
                       lists: Result<(seq<string>, seq<string>)>, modelFields: Result<seq<string>>)
    returns (v: Verification)
    requires url != "" && deck != "" && model != ""
    modifies st, client
    ensures var run := VerifyOf(url, deck, model, sentenceField, soundField, lists, modelFields);
            v == run.verdict &&
            st.values == old(st.values).(settings := Cleared(old(st.values.settings), run),
                                         lastError := run.failure.GetOr(old(st.values.lastError))) &&
            client.permissionGranted == (old(client.permissionGranted) && run.failure.None?)
    ensures client.key == old(client.key) && client.calls == old(client.calls)
  {
    if lists.Err? {
      FailVerification(st, client, lists.message);
      return Verification(false, []);
    }
    var clearDeck, clearModel, clearSentenceField, clearSoundField := false, false, false, false;
    var fields: seq<string> := [];
    if deck !in lists.value.0 {
      clearDeck := true;
    }
    if model !in lists.value.1 {
      clearModel := true;
    }
    if !clearDeck && !clearModel {
      if modelFields.Err? {
        FailVerification(st, client, modelFields.message);
        return Verification(false, []);
      }
      fields := modelFields.value;
      if sentenceField != "" && sentenceField !in fields {
        clearSentenceField := true;
      }
      if soundField != "" && soundField !in fields {
        clearSoundField := true;
      }
    }
    var run := VerifyRun(Verification(!(clearDeck || clearModel || clearSentenceField || clearSoundField), fields),
                         clearDeck, clearModel, clearSentenceField, clearSoundField, None);
    st.values := st.values.(settings := Cleared(st.values.settings, run));
    v := run.verdict;
  }

  /** The `catch` of `verifyAnkiSettings`. */
  method FailVerification(st: AppState, client: AnkiClient, message: string)
    modifies st, client
    ensures st.values == old(st.values).(settings := ResetSettings(old(st.values.settings)),
                                         lastError := "Failed to verify Anki settings: " + message)
    ensures !client.permissionGranted && client.key == old(client.key) && client.calls == old(client.calls)
  {
    ResetAnkiSettings(st, client);
    st.values := st.values.(lastError := "Failed to verify Anki settings: " + message);
  }

  // ---------------------------------------------------------------------
  // The checks before the export, startExport and finalizeExport
  // ---------------------------------------------------------------------

  /** Why an export is refused: an invalid configuration, an update that
      AnkiConnect Android cannot do, or both. */
  function RefusalReasons(valid: bool, blockedUpdate: bool): string {
    if valid && blockedUpdate then "Your AnkiConnect does not support updates"
    else if valid then ""
    else if blockedUpdate then "Anki settings are invalid; Your AnkiConnect does not support updates"
    else "Anki settings are invalid"
  }

  /** The last error an export is refused with: the earlier error, if any,
      then the reasons, separated by `; `. It keeps the earlier error in
      front and names the reasons last. */
  function RefusalMessage(lastError: string, valid: bool, blockedUpdate: bool): (r: string)
    ensures lastError == "" ==> r == RefusalReasons(valid, blockedUpdate)
    ensures lastError != "" ==> StartsWith(r, lastError + "; ")
    ensures EndsWith(r, RefusalReasons(valid, blockedUpdate))
  {
    var prefix := if lastError != "" then lastError + "; " else "";
    var reasons := RefusalReasons(valid, blockedUpdate);
    assert (prefix + reasons)[..|prefix|] == prefix;
    assert (prefix + reasons)[|prefix + reasons| - |reasons|..] == reasons;
    prefix + reasons
  }

  /** `RequestNotesInfoResult`: a note's id, tags and field values. */
  datatype Card = Card(noteId: int, tags: seq<string>, fields: map<string, string>)

  /** The card an update rewrites: the note added last today (`findNotes`,
      0 or none meaning no note) and then its data (`notesInfo`). */
  function CardForUpdate(found: Result<seq<int>>, info: Result<seq<Card>>): (r: Result<Card>)
    ensures r.Ok? <==> found.Ok? && found.value != [] && found.value[|found.value| - 1] != 0 &&
                       info.Ok? && info.value != []
    ensures r.Ok? ==> r.value == info.value[0]
    ensures found.Err? ==> r == Err(found.message)
    ensures found.Ok? && (found.value == [] || found.value[|found.value| - 1] == 0) ==> r == Err("No card added today")
    ensures found.Ok? && found.value != [] && found.value[|found.value| - 1] != 0 && info.Ok? && info.value == [] ==>
              r == Err("Data for last added card not available")
  {
    if found.Err? then Err(found.message)
    else if found.value == [] || found.value[|found.value| - 1] == 0 then Err("No card added today")
    else if info.Err? then Err(info.message)
    else if info.value == [] then Err("Data for last added card not available")
    else Ok(info.value[0])
  }

  /** What `startExport` did: the requests it sent that change Anki's view,
      the note selected before (0 for none), and the failure it threw. */
  datatype Start = Start(calls: seq<AnkiCall>, lastNoteId: int, failure: Option<string>)

  /** `startExport(ankiUrl, isAnkiconnectAndroid)`: the notes selected in
      Anki's browser (none when that request fails) are remembered, and the
      browser is pointed away from them; AnkiConnect Android has no browser. */
  function StartExportOf(android: bool, selected: Result<seq<int>>, selectReply: Outcome): (r: Start)
    ensures android || selected.Err? || selected.value == [] ==> r == Start([], 0, None)
    ensures !android && selected.Ok? && selected.value != [] ==>
              r.calls == [GuiSelectNote(1)] && r.lastNoteId == selected.value[|selected.value| - 1] &&
              (r.failure.Some? <==> selectReply.Fail?)
  {
    if android then Start([], 0, None)
    else
      var notes := if selected.Ok? then selected.value else [];
      if notes == [] then Start([], 0, None)
      else Start([GuiSelectNote(1)], notes[|notes| - 1], if selectReply.Fail? then Some(selectReply.message) else None)
  }

  /** `finalizeExport(ankiUrl, note)`: the note selected before the export
      is selected again; a failure is ignored. */
  function FinalizeCalls(lastNoteId: int): (r: seq<AnkiCall>)
    ensures lastNoteId == 0 ==> r == []
    ensures lastNoteId != 0 ==> r == [GuiSelectNote(lastNoteId)]
  {
    if lastNoteId != 0 then [GuiSelectNote(lastNoteId)] else []
  }

  /** The export puts Anki's browser back where it was: when notes were
      selected before, the first request selects the placeholder `1` and
      the last one selects the last of them again. */
  lemma ExportRestoresSelection(selected: seq<int>, selectReply: Outcome, between: seq<AnkiCall>)
    requires selected != [] && selected[|selected| - 1] != 0
    ensures var start := StartExportOf(false, Ok(selected), selectReply);
            var calls := start.calls + between + FinalizeCalls(start.lastNoteId);
            calls[0] == GuiSelectNote(1) && calls[|calls| - 1] == GuiSelectNote(selected[|selected| - 1])
  {
  }

  // ---------------------------------------------------------------------
  // One group of lines becomes one note
  // ---------------------------------------------------------------------

  /** `name.split(/\.(?=[^\.]+$)/)[0]`: the name without its extension,
      which is what follows the last dot when that is not the last
      character. */
  function BaseName(name: string): (r: string)
    ensures LastIndexOf(name, '.').Some? && LastIndexOf(name, '.').value < |name| - 1 ==>
              r == name[..LastIndexOf(name, '.').value] && r + "." + name[|r| + 1..] == name
    ensures LastIndexOf(name, '.').None? || LastIndexOf(name, '.').value == |name| - 1 ==> r == name
  {
    match LastIndexOf(name, '.')
    case Some(i) =>
      if i < |name| - 1 then
        assert name[..i] + "." + name[i + 1..] == name by {
          assert name == name[..i] + [name[i]] + name[i + 1..];
        }
        name[..i]
      else name
    case None => name
  }

  /** The audio file of a group: the subtitle file's base name, the first
      line's id, the last line's id when there are several, and the
      format as extension. */
  function AudioFileName(base: string, group: seq<Subtitle>, format: AudioFormat): (r: string)
    requires group != []
    ensures StartsWith(r, base + "-" + group[0].id)
    ensures EndsWith(r, "." + format.Text())
    ensures |group| == 1 ==> r == base + "-" + group[0].id + "." + format.Text()
  {
    var head := base + "-" + group[0].id;
    var tail := "." + format.Text();
    var r := head + (if |group| > 1 then "-" + group[|group| - 1].id else "") + tail;
    assert r[..|head|] == head;
    assert r[|r| - |tail|..] == tail;
    r
  }

  /** The trimmed texts of a group's lines. */
  function TrimmedTexts(group: seq<Subtitle>): (r: seq<string>)
    ensures |r| == |group|
    ensures forall i :: 0 <= i < |group| ==> r[i] == Trim(group[i].text)
  {
    seq(|group|, i requires 0 <= i < |group| => Trim(group[i].text))
  }

  /** The sentence of a group: its lines' trimmed texts joined by `<br/>`. */
  function SentenceContent(group: seq<Subtitle>): (r: string)
    ensures group == [] ==> r == ""
    ensures |group| == 1 ==> r == Trim(group[0].text)
    ensures group != [] ==> StartsWith(r, Trim(group[0].text)) && EndsWith(r, Trim(group[|group| - 1].text))
  {
    var texts := TrimmedTexts(group);
    if group == [] then Join(texts, "<br/>")
    else
      JoinFirst(texts, "<br/>");
      JoinLast(texts, "<br/>");
      Join(texts, "<br/>")
  }

  /** A tag made of a name: trimmed, spaces turned into underscores. */
  function TagOf(s: string): (r: string)
    ensures ' ' !in r
  {
    var replaced := ReplaceChar(Trim(s), ' ', '_');
    assert ' ' !in replaced;
    TrimKeeps(replaced, ' ');
    Trim(replaced)
  }

  /** The tags of the tag list setting: none when it is blank, else a tag
      per comma-separated entry. */
  function TagListOf(setting: string): (r: seq<string>)
    ensures Trim(setting) == "" ==> r == []
    ensures Trim(setting) != "" ==> (|r| == |Split(Trim(setting), ',')| &&
              forall i :: 0 <= i < |r| ==> r[i] == TagOf(Split(Trim(setting), ',')[i]))
    ensures forall t :: t in r ==> ' ' !in t && ',' !in t
  {
    var trimmed := Trim(setting);
    if trimmed == "" then []
    else
      var parts := Split(trimmed, ',');
      var r := seq(|parts|, i requires 0 <= i < |parts| => TagOf(parts[i]));
      assert forall i :: 0 <= i < |parts| ==> ',' !in r[i] by {
        forall i | 0 <= i < |parts| ensures ',' !in r[i] {
          assert ',' !in parts[i];
          assert ',' !in Trim(ReplaceChar(Trim(parts[i]), ' ', '_')) by {
            TrimKeeps(parts[i], ',');
            TrimKeeps(ReplaceChar(Trim(parts[i]), ' ', '_'), ',');
          }
        }
      }
      r
  }

  /** Trimming adds no character. */
  lemma TrimKeeps(s: string, c: char)
    requires c !in s
    ensures c !in Trim(s)
  {
    var t := TrimStart(s);
    assert t == s[|s| - |t|..];
    assert TrimEnd(t) == t[..|TrimEnd(t)|];
  }

  /** The tags of a note: the card's own (for an update), the subtitle
      file's, the audio file's, then those of the setting, each once. */
  function NoteTags(card: Option<Card>, addSubtitleTag: bool, subtitleName: string, addAudioTag: bool,
                    audioName: string, tagList: seq<string>): (r: seq<string>)
    ensures NoDuplicates(r)
  {
    var own := if card.Some? then card.value.tags else [];
    var withSubtitle := if addSubtitleTag then Add(Dedup(own), TagOf(subtitleName)) else Dedup(own);
    var withAudio := if addAudioTag && audioName != "" then Add(withSubtitle, TagOf(audioName)) else withSubtitle;
    DedupProperties(withAudio + tagList);
    Dedup(withAudio + tagList)
  }

  /** The tags of a note are exactly the card's, the files' (when asked
      for) and the setting's. */
  lemma NoteTagsMembers(card: Option<Card>, addSubtitleTag: bool, subtitleName: string, addAudioTag: bool,
                        audioName: string, tagList: seq<string>)
    ensures forall t :: t in NoteTags(card, addSubtitleTag, subtitleName, addAudioTag, audioName, tagList) <==>
              (card.Some? && t in card.value.tags) || (addSubtitleTag && t == TagOf(subtitleName)) ||
              (addAudioTag && audioName != "" && t == TagOf(audioName)) || t in tagList
  {
    forall t {
      NoteTagMember(card, addSubtitleTag, subtitleName, addAudioTag, audioName, tagList, t);
    }
  }

  lemma NoteTagMember(card: Option<Card>, addSubtitleTag: bool, subtitleName: string, addAudioTag: bool,
                      audioName: string, tagList: seq<string>, t: string)
    ensures t in NoteTags(card, addSubtitleTag, subtitleName, addAudioTag, audioName, tagList) <==>
            (card.Some? && t in card.value.tags) || (addSubtitleTag && t == TagOf(subtitleName)) ||
            (addAudioTag && audioName != "" && t == TagOf(audioName)) || t in tagList
  {
    var own := if card.Some? then card.value.tags else [];
    var withSubtitle := if addSubtitleTag then Add(Dedup(own), TagOf(subtitleName)) else Dedup(own);
    var withAudio := if addAudioTag && audioName != "" then Add(withSubtitle, TagOf(audioName)) else withSubtitle;
    assert NoteTags(card, addSubtitleTag, subtitleName, addAudioTag, audioName, tagList) == Dedup(withAudio + tagList);
    DedupMember(own, t);
    assert t in withSubtitle <==> t in own || (addSubtitleTag && t == TagOf(subtitleName));
    assert t in withAudio <==> t in withSubtitle || (addAudioTag && audioName != "" && t == TagOf(audioName));
    DedupMember(withAudio + tagList, t);
  }

  lemma DedupMember(xs: seq<string>, t: string)
    ensures t in Dedup(xs) <==> t in xs
  {
    DedupProperties(xs);
  }

  /** `exportCardOptions` for a duplicate mode: duplicates allowed when the
      check is off; otherwise checked within the deck (with or without its
      children) or the whole collection. */
  function DuplicateOptionsOf(mode: AnkiDuplicateMode, deck: string): (r: DuplicateOptions)
    ensures r.allowDuplicate <==> mode == Disabled
    ensures r.allowDuplicate ==> r.scope.None? && r.scopeOptions.None?
    ensures !r.allowDuplicate ==> r.scope.Some? && r.scopeOptions.Some?
    ensures r.scope == Some("deck") <==> mode == Deck || mode == DeckAndChildren
    ensures r.scope == Some("collection") <==> mode == Collection
    ensures r.scopeOptions.Some? ==> (r.scopeOptions.value.checkChildren <==> mode == DeckAndChildren)
    ensures r.scopeOptions.Some? ==> (r.scopeOptions.value.deckName.Some? <==> mode == Deck)
    ensures r.scopeOptions.Some? && mode == Deck ==> r.scopeOptions.value.deckName == Some(deck)
  {
    if mode == Disabled then DuplicateOptions(true, None, None)
    else
      DuplicateOptions(false, Some(if mode == Deck || mode == DeckAndChildren then "deck" else "collection"),
                       Some(ScopeOptions(mode == DeckAndChildren, if mode == Deck then Some(deck) else None)))
  }

  /** The settings, the configuration check and the card to update, as the
      export loop uses them for every group. */
  datatype ExportConfig = ExportConfig(
    isUpdate: bool,
    isMobile: bool,
    isFfmpeg: bool,
    fieldMode: ExportFieldMode,
    format: AudioFormat,
    deck: string,
    model: string,
    sentenceField: string,
    soundField: string,
    duplicateMode: AnkiDuplicateMode,
    allowEmptyKey: bool,
    ankiFields: seq<string>,
    subtitleName: string,
    audioName: string,
    hasAudioFile: bool,
    tags: seq<string>,
    card: Option<Card>)

  /** The value a field had on the card to update (`""` for a new note). */
  function ExistingValue(card: Option<Card>, field: string): string {
    if card.Some? && field in card.value.fields then card.value.fields[field] else ""
  }

  /** The value written to `field`: the sentence goes into the sentence
      field and a `[sound:…]` reference into the sound field (after the
      sentence when they are the same field), merged with the card's value
      by the field mode; every other field keeps the card's value. */
  function FieldValue(cfg: ExportConfig, field: string, sentence: string, audio: string, audioName: string): (r: string)
    ensures var asSentence := field == cfg.sentenceField && sentence != "";
            var asAudio := field == cfg.soundField && audio != "";
            var sound := "[sound:" + audioName + "]";
            (!asSentence && !asAudio ==> r == ExistingValue(cfg.card, field)) &&
            (asSentence && !asAudio ==> r == NewFieldValue(cfg.fieldMode, ExistingValue(cfg.card, field), sentence)) &&
            (!asSentence && asAudio ==> r == NewFieldValue(cfg.fieldMode, ExistingValue(cfg.card, field), sound)) &&
            (asSentence && asAudio ==>
               r == NewFieldValue(cfg.fieldMode, ExistingValue(cfg.card, field), sentence + "<br/>" + sound))
  {
    var existing := ExistingValue(cfg.card, field);
    var asSentence := field == cfg.sentenceField && sentence != "";
    var asAudio := field == cfg.soundField && audio != "";
    if asSentence || asAudio then
      var content := if asSentence then sentence else "";
      var withAudio := if asAudio then NewFieldValue(After, content, "[sound:" + audioName + "]") else content;
      NewFieldValue(cfg.fieldMode, existing, withAudio)
    else existing
  }

  /** The fields of a note, written in the order of `fields`. */
  function FieldsOf(cfg: ExportConfig, sentence: string, audio: string, audioName: string, fields: seq<string>)
    : (r: OrderedMap<string, string>)
    ensures r.Valid()
    ensures forall f :: f in r.entries <==> f in fields
    ensures forall f :: f in r.entries ==> r.entries[f] == FieldValue(cfg, f, sentence, audio, audioName)
  {
    if fields == [] then EmptyMap()
    else
      var last := fields[|fields| - 1];
      FieldsOf(cfg, sentence, audio, audioName, fields[..|fields| - 1]).Set(last, FieldValue(cfg, last, sentence, audio, audioName))
  }

  /** The loop that fills a note's fields, one per field of the model. */
  method BuildFields(cfg: ExportConfig, sentence: string, audio: string, audioName: string) returns (r: OrderedMap<string, string>)
    ensures r == FieldsOf(cfg, sentence, audio, audioName, cfg.ankiFields)
  {
    r := EmptyMap();
    var index := 0;
    while index < |cfg.ankiFields|
      invariant 0 <= index <= |cfg.ankiFields|
      invariant r == FieldsOf(cfg, sentence, audio, audioName, cfg.ankiFields[..index])
    {
      var field := cfg.ankiFields[index];
      ghost var prefix := cfg.ankiFields[..index + 1];
      assert prefix[..|prefix| - 1] == cfg.ankiFields[..index] && prefix[|prefix| - 1] == field;
      assert FieldsOf(cfg, sentence, audio, audioName, prefix) ==
             FieldsOf(cfg, sentence, audio, audioName, cfg.ankiFields[..index]).Set(field, FieldValue(cfg, field, sentence, audio, audioName));
      r := r.Set(field, FieldValue(cfg, field, sentence, audio, audioName));
      index := index + 1;
    }
    assert cfg.ankiFields[..index] == cfg.ankiFields;
  }

  /** The key field, the model's first; `ankiFields[0]` of an empty list is
      `undefined`, which names the field `"undefined"`. */
  function KeyField(fields: seq<string>): (r: string)
    ensures fields != [] ==> r == fields[0] && r in fields
    ensures fields == [] ==> r == "undefined"
  {
    if fields == [] then "undefined" else fields[0]
  }

  /** The zero-width space an empty key field is filled with when allowed. */
  const ZeroWidthSpace: string := "&#8203;"

  /** A note whose key field is blank is refused, unless empty key fields
      are allowed, in which case the key field is filled. */
  function WithKeyField(cfg: ExportConfig, fields: OrderedMap<string, string>): (r: Result<OrderedMap<string, string>>)
    requires fields.Valid()
    ensures var key := KeyField(cfg.ankiFields);
            var blank := key !in fields.entries || Trim(fields.entries[key]) == "";
            (r.Err? <==> blank && !cfg.allowEmptyKey) &&
            (r.Err? ==> r.message == "cannot process note because it is empty") &&
            (r.Ok? && !blank ==> r.value == fields) &&
            (r.Ok? && blank ==> r.value == fields.Set(key, ZeroWidthSpace))
  {
    var key := KeyField(cfg.ankiFields);
    if key in fields.entries && Trim(fields.entries[key]) != "" then Ok(fields)
    else if cfg.allowEmptyKey then Ok(fields.Set(key, NewFieldValue(cfg.fieldMode, "", ZeroWidthSpace)))
    else Err("cannot process note because it is empty")
  }

  /** The fields of a group's note: every field of the model with its
      value, the key field filled when it is blank and that is allowed. */
  function NoteFields(cfg: ExportConfig, sentence: string, audio: string, audioName: string)
    : (r: Result<OrderedMap<string, string>>)
    ensures var key := KeyField(cfg.ankiFields);
            var keyValue := if key in cfg.ankiFields then FieldValue(cfg, key, sentence, audio, audioName) else "";
            (r.Err? <==> Trim(keyValue) == "" && !cfg.allowEmptyKey) &&
            (r.Ok? ==> (r.value.Valid() &&
               (forall f :: f in r.value.entries <==> f in cfg.ankiFields || (Trim(keyValue) == "" && f == key)) &&
               (forall f :: f in cfg.ankiFields && f != key ==> r.value.entries[f] == FieldValue(cfg, f, sentence, audio, audioName)) &&
               r.value.entries[key] == if Trim(keyValue) == "" then ZeroWidthSpace else keyValue))
  {
    WithKeyField(cfg, FieldsOf(cfg, sentence, audio, audioName, cfg.ankiFields))
  }

  /** The note sent for a group: the card's id for an update, else the
      deck, the model and the duplicate options. */
  function NoteOf(cfg: ExportConfig, fields: OrderedMap<string, string>, audio: seq<AudioAttachment>): (r: Note)
    ensures r.fields == fields && r.tags == cfg.tags && r.audio == audio
    ensures cfg.card.Some? ==> r.id == Some(cfg.card.value.noteId) && r.deckName.None? && r.options.None?
    ensures cfg.card.None? ==> r.id.None? && r.deckName == Some(cfg.deck) && r.modelName == Some(cfg.model) &&
                               r.options == Some(DuplicateOptionsOf(cfg.duplicateMode, cfg.deck))
  {
    if cfg.card.Some? then Note(fields, cfg.tags, audio, Some(cfg.card.value.noteId), None, None, None)
    else Note(fields, cfg.tags, audio, None, Some(cfg.deck), Some(cfg.model), Some(DuplicateOptionsOf(cfg.duplicateMode, cfg.deck)))
  }

  /** How the audio of a group was obtained: a clip (as base64), no clip,
      or a failure, which may be an abort. */
  datatype AudioAnswer = Clip(content: string) | NoClip | ClipFailure(message: string, isAbortError: bool)

  /** How the requests of one group settle: the audio, `storeMediaFile`
      (its reply is the stored name) and `addNote` / `updateNote` (0 for a
      falsy reply). */
  datatype GroupAnswers = GroupAnswers(audio: AudioAnswer, stored: Result<string>, noteReply: Result<int>)

  /** What one group did: the media file it stored and the note it sent
      (the requests that change Anki), the error it was caught with,
      whether that error is an abort, and the playback request it made;
      `Crashed` when the group has no line, which throws out of the export. */
  datatype GroupRun =
    | Crashed
    | Ran(media: Option<AnkiCall>, sent: Option<AnkiCall>, error: Option<string>, abortError: bool,
          playLine: Option<PlayLineData>)
  {
    /** The requests of the group that change Anki, in the order sent. */
    function Calls(): seq<AnkiCall> {
      if Crashed? then []
      else (if media.Some? then [media.value] else []) + (if sent.Some? then [sent.value] else [])
    }

    /** The group was caught with an error. */
    predicate Failed() {
      Ran? && error.Some?
    }
  }

  /** The message of the error an empty group throws. */
  const EmptyGroupMessage: string := "Cannot read properties of undefined (reading 'id')"

  /** An `addNote` or `updateNote` reply: a failure, or for a new note a
      falsy id, is an error. */
  function NoteReplyError(isUpdate: bool, reply: Result<int>): (r: Option<string>)
    ensures r.None? <==> reply.Ok? && (isUpdate || reply.value != 0)
    ensures reply.Err? ==> r == Some(reply.message)
    ensures reply.Ok? && r.Some? ==> r == Some("Got failure response")
  {
    if reply.Err? then Some(reply.message)
    else if !isUpdate && reply.value == 0 then Some("Got failure response")
    else None
  }

  /** The part of a group after its audio: the media file is stored first
      on a mobile device, then the note is filled, checked and sent. At
      most the media file and the note are sent, the note last. */
  function NoteRun(cfg: ExportConfig, group: seq<Subtitle>, audio: string, answers: GroupAnswers,
                   playLine: Option<PlayLineData>): (r: GroupRun)
    requires group != []
    ensures r.Ran? && !r.abortError && r.playLine == playLine
    ensures r.media.Some? ==> r.media.value.StoreMediaFile?
    ensures r.sent.Some? ==> (r.sent.value.AddNote? <==> !cfg.isUpdate) && (r.sent.value.UpdateNote? <==> cfg.isUpdate)
    ensures r.error.None? ==> r.sent.Some?
  {
    var fileName := AudioFileName(cfg.subtitleName, group, cfg.format);
    var audioUsed := cfg.soundField in cfg.ankiFields && audio != "";
    var store := if audioUsed && cfg.isMobile then Some(StoreMediaFile(audio, fileName)) else None;
    if audioUsed && cfg.isMobile && answers.stored.Err? then Ran(store, None, Some(answers.stored.message), false, playLine)
    else
      var audioName := if audioUsed && cfg.isMobile then answers.stored.value else fileName;
      var attachments := if audioUsed && !cfg.isMobile then [AudioAttachment(audio, true, fileName, [""])] else [];
      var fields := NoteFields(cfg, SentenceContent(group), audio, audioName);
      if fields.Err? then Ran(store, None, Some(fields.message), false, playLine)
      else
        var note := NoteOf(cfg, fields.value, attachments);
        var send := if cfg.isUpdate then UpdateNote(note) else AddNote(note);
        Ran(store, Some(send), NoteReplyError(cfg.isUpdate, answers.noteReply), false, playLine)
  }

  /** The body of the export loop for one group: its audio is cut by
      FFmpeg or recorded by the player (a playback request) when a sound
      field and an audio file are set, then the note is sent. Only an empty
      group throws; an abort comes only from the audio, which sends nothing. */
  function GroupRunOf(cfg: ExportConfig, group: seq<Subtitle>, answers: GroupAnswers): (r: GroupRun)
    ensures group == [] <==> r.Crashed?
    ensures r.Ran? && r.abortError ==> r.media.None? && r.sent.None? && r.error.Some?
    ensures r.Ran? && r.media.Some? ==> r.media.value.StoreMediaFile?
    ensures r.Ran? ==> (r.playLine.Some? <==> cfg.soundField != "" && cfg.hasAudioFile && !cfg.isFfmpeg)
    ensures r.Ran? && r.playLine.Some? ==> r.playLine.value == PlayLineData(TogglePlayPause, group, false, false)
    ensures r.Ran? && r.error.None? ==> r.sent.Some?
    ensures r.Ran? && r.sent.Some? ==> (r.sent.value.AddNote? <==> !cfg.isUpdate) && (r.sent.value.UpdateNote? <==> cfg.isUpdate)
  {
    if group == [] then Crashed
    else
      var needsAudio := cfg.soundField != "" && cfg.hasAudioFile;
      var playLine := if needsAudio && !cfg.isFfmpeg then Some(PlayLineData(TogglePlayPause, group, false, false)) else None;
      if !needsAudio then NoteRun(cfg, group, "", answers, playLine)
      else match answers.audio
        case Clip(content) => NoteRun(cfg, group, content, answers, playLine)
        case NoClip => Ran(None, None, Some("No audio file returned"), false, playLine)
        case ClipFailure(message, isAbortError) => Ran(None, None, Some(message), isAbortError, playLine)
  }

  /** A new note carries the sentence: with a sentence field that is not
      the sound field, its sentence field holds exactly the group's joined
      lines. */
  lemma NewNoteHoldsSentence(cfg: ExportConfig, group: seq<Subtitle>, audio: string, answers: GroupAnswers,
                             playLine: Option<PlayLineData>)
    requires group != [] && cfg.card.None?
    requires cfg.sentenceField in cfg.ankiFields && cfg.sentenceField != cfg.soundField
    requires Trim(SentenceContent(group)) != ""
    ensures var r := NoteRun(cfg, group, audio, answers, playLine);
            r.error.None? ==>
              var note := r.sent.value.note;
              cfg.sentenceField in note.fields.entries && note.fields.entries[cfg.sentenceField] == SentenceContent(group)
  {
    var fileName := AudioFileName(cfg.subtitleName, group, cfg.format);
    var audioUsed := cfg.soundField in cfg.ankiFields && audio != "";
    if !(audioUsed && cfg.isMobile && answers.stored.Err?) {
      var audioName := if audioUsed && cfg.isMobile then answers.stored.value else fileName;
      SentenceFieldHoldsSentence(cfg, SentenceContent(group), audio, audioName);
    }
  }

  /** The sentence field of a new note holds the sentence. */
  lemma SentenceFieldHoldsSentence(cfg: ExportConfig, sentence: string, audio: string, audioName: string)
    requires cfg.card.None? && cfg.sentenceField in cfg.ankiFields && cfg.sentenceField != cfg.soundField
    requires Trim(sentence) != ""
    ensures var fields := NoteFields(cfg, sentence, audio, audioName);
            fields.Ok? ==> fields.value.entries[cfg.sentenceField] == sentence
  {
    var value := FieldValue(cfg, cfg.sentenceField, sentence, audio, audioName);
    assert value == NewFieldValue(cfg.fieldMode, "", sentence);
    assert value == sentence;
  }

  // ---------------------------------------------------------------------
  // The export loop
  // ---------------------------------------------------------------------

  /** How the export loop ended: after every group, by a `break` at a
      group whose error was an abort, or by a throw at a group. */
  datatype LoopEnd = Completed | BrokeAt(index: nat) | ThrewAt(index: nat, message: string)

  /** The controller is aborted when group `i` starts: it was at the start
      of the loop, or the user cancelled during an earlier group. */
  predicate AbortedBefore(startAborted: bool, cancelAt: Option<nat>, i: nat) {
    startAborted || (cancelAt.Some? && cancelAt.value < i)
  }

  /** How the loop ends from group `from` on: a throw when the controller
      is aborted as a group starts or the group is empty, a `break` when a
      group's error is an abort or came with the cancellation. */
  function LoopEndOf(runs: seq<GroupRun>, startAborted: bool, cancelAt: Option<nat>, from: nat): (r: LoopEnd)
    requires from <= |runs|
    ensures r.BrokeAt? || r.ThrewAt? ==> from <= r.index < |runs|
    decreases |runs| - from
  {
    if from == |runs| then Completed
    else if AbortedBefore(startAborted, cancelAt, from) then ThrewAt(from, UserAborted)
    else if runs[from].Crashed? then ThrewAt(from, EmptyGroupMessage)
    else if runs[from].error.Some? && (cancelAt == Some(from) || runs[from].abortError) then BrokeAt(from)
    else LoopEndOf(runs, startAborted, cancelAt, from + 1)
  }

  /** The groups whose requests were sent. */
  function Reached(end: LoopEnd, n: nat): nat {
    match end
    case Completed => n
    case BrokeAt(i) => i + 1
    case ThrewAt(i, _) => i
  }

  /** The groups that went through to the progress update. */
  function Counted(end: LoopEnd, n: nat): nat {
    match end
    case Completed => n
    case BrokeAt(i) => i
    case ThrewAt(i, _) => i
  }

  /** The requests of the groups that change Anki, in order. */
  function CallsOf(runs: seq<GroupRun>): seq<AnkiCall> {
    if runs == [] then [] else CallsOf(runs[..|runs| - 1]) + runs[|runs| - 1].Calls()
  }

  /** The groups that failed. */
  function Failures(runs: seq<GroupRun>): (r: nat)
    ensures r <= |runs|
  {
    if runs == [] then 0
    else Failures(runs[..|runs| - 1]) + (if runs[|runs| - 1].Failed() then 1 else 0)
  }

  /** The playback request in force after the groups: the last one made. */
  function LastPlayLine(runs: seq<GroupRun>, initial: Option<PlayLineData>): Option<PlayLineData> {
    if runs == [] then initial
    else if runs[|runs| - 1].Ran? && runs[|runs| - 1].playLine.Some? then runs[|runs| - 1].playLine
    else LastPlayLine(runs[..|runs| - 1], initial)
  }

  /** The export progress after `done` of `n` groups, in percent. */
  function Progress(done: nat, n: nat): (r: int)
    ensures done <= n ==> 0 <= r <= 100
  {
    var p := Percentage(done, n);
    if p < 100 then p else 100
  }

  /** The progress only grows, and reaches 100 with the last group. */
  lemma {:induction false} ProgressGrows(a: nat, b: nat, n: nat)
    requires a <= b <= n
    ensures Progress(a, n) <= Progress(b, n)
    ensures n > 0 ==> Progress(n, n) == 100
  {
    PercentageMonotone(a, b, n);
    if n > 0 {
      var all := Percentage(n, n);
      if all < 100 {
        MulStep(100, all, n);
      }
    }
  }

  /** What the export loop has done so far: how it ended (`Pass` while
      running), the failed groups, the requests sent, the groups whose
      progress was reported, the playback request and whether the
      controller is aborted. */
  datatype LoopState = LoopState(outcome: Outcome, failures: nat, calls: seq<AnkiCall>, done: nat,
                                 playLine: Option<PlayLineData>, aborted: bool)

  /** The export loop from group `i` on, over precomputed group bodies
      `runs`, with the user cancelling during group `cancelAt`. */
  function LoopFrom(runs: seq<GroupRun>, cancelAt: Option<nat>, i: nat, acc: LoopState): (r: LoopState)
    requires i <= |runs|
    ensures acc.calls <= r.calls && acc.failures <= r.failures
    ensures r.done == acc.done || i < r.done <= |runs|
    ensures acc.outcome.Pass? && r.outcome.Fail? ==> r.outcome.message in {UserAborted, EmptyGroupMessage}
    decreases |runs| - i
  {
    if i == |runs| then acc
    else match TurnAt(runs, cancelAt, i, acc)
      case Stop(fin) => fin
      case Next(next) => LoopFrom(runs, cancelAt, i + 1, next)
  }

  /** How one turn of the loop ends: the loop stops with its final state,
      or goes on to the next group. */
  datatype Turn = Stop(state: LoopState) | Next(state: LoopState)

  /** One turn of the loop, at group `i`: a throw when the controller is
      already aborted or the group is empty; a `break` when the group's
      error is an abort or came with the cancellation; otherwise the group
      is counted and the loop goes on. */
  function TurnAt(runs: seq<GroupRun>, cancelAt: Option<nat>, i: nat, acc: LoopState): Turn
    requires i < |runs|
  {
    if acc.aborted then Stop(acc.(outcome := Fail(UserAborted)))
    else if runs[i].Crashed? then Stop(acc.(outcome := Fail(EmptyGroupMessage)))
    else if runs[i].error.Some? && (cancelAt == Some(i) || runs[i].abortError) then Stop(AfterGroup(runs, cancelAt, i, acc))
    else Next(NextState(runs, cancelAt, i, acc))
  }

  /** The loop's result `fin` agrees with where it ends: it throws at a
      throw, it holds the requests and playback requests of every group
      reached, and the failures and progress of every group counted. */
  predicate Describes(fin: LoopState, runs: seq<GroupRun>, startAborted: bool, cancelAt: Option<nat>,
                      calls0: seq<AnkiCall>, playLine0: Option<PlayLineData>, end: LoopEnd)
  {
    var reached := Reached(end, |runs|);
    var counted := Counted(end, |runs|);
    reached <= |runs| && counted <= reached &&
    fin.outcome == (if end.ThrewAt? then Fail(end.message) else Pass) &&
    fin.failures == Failures(runs[..counted]) &&
    fin.calls == calls0 + CallsOf(runs[..reached]) &&
    fin.done == counted &&
    fin.playLine == LastPlayLine(runs[..reached], playLine0) &&
    fin.aborted == AbortedBefore(startAborted, cancelAt, reached)
  }

  /** The loop's state before group `i`. */
  predicate StateBefore(acc: LoopState, runs: seq<GroupRun>, startAborted: bool, cancelAt: Option<nat>, i: nat,
                   calls0: seq<AnkiCall>, playLine0: Option<PlayLineData>)
    requires i <= |runs|
  {
    acc.outcome == Pass && acc.aborted == AbortedBefore(startAborted, cancelAt, i) &&
    acc.failures == Failures(runs[..i]) && acc.calls == calls0 + CallsOf(runs[..i]) &&
    acc.done == i && acc.playLine == LastPlayLine(runs[..i], playLine0)
  }

  /** From group `i` on, the loop's result agrees with where it ends. */
  lemma {:induction false} LoopFromMeaning(runs: seq<GroupRun>, startAborted: bool, cancelAt: Option<nat>, i: nat,
                                           acc: LoopState, calls0: seq<AnkiCall>,
                                           playLine0: Option<PlayLineData>)
    requires i <= |runs|
    requires StateBefore(acc, runs, startAborted, cancelAt, i, calls0, playLine0)
    ensures Describes(LoopFrom(runs, cancelAt, i, acc), runs, startAborted, cancelAt, calls0, playLine0,
                      LoopEndOf(runs, startAborted, cancelAt, i))
    decreases |runs| - i
  {
    if i == |runs| {
      assert runs[..i] == runs;
    } else if acc.aborted || runs[i].Crashed? {
    } else {
      if runs[i].error.Some? && (cancelAt == Some(i) || runs[i].abortError) {
        LoopBreaks(runs, startAborted, cancelAt, i, acc, calls0, playLine0);
      } else {
        LoopPasses(runs, startAborted, cancelAt, i, acc, calls0, playLine0);
        EndSkipsGroup(runs, startAborted, cancelAt, i, acc, calls0, playLine0);
        LoopSkipsGroup(runs, cancelAt, i, acc);
        LoopFromMeaning(runs, startAborted, cancelAt, i + 1, NextState(runs, cancelAt, i, acc), calls0, playLine0);
      }
    }
  }

  /** The state after group `i`'s requests, playback request and, if it
      comes during this group, the user's cancellation. */
  function AfterGroup(runs: seq<GroupRun>, cancelAt: Option<nat>, i: nat, acc: LoopState): LoopState
    requires i < |runs|
  {
    var run := runs[i];
    acc.(calls := acc.calls + run.Calls(),
         playLine := if run.Ran? && run.playLine.Some? then run.playLine else acc.playLine,
         aborted := cancelAt == Some(i))
  }

  /** The state before group `i + 1`, when group `i` did not end the loop. */
  function NextState(runs: seq<GroupRun>, cancelAt: Option<nat>, i: nat, acc: LoopState): LoopState
    requires i < |runs|
  {
    var after := AfterGroup(runs, cancelAt, i, acc);
    after.(failures := after.failures + (if runs[i].Failed() then 1 else 0), done := i + 1)
  }

  /** A group whose error is an abort or came with the cancellation ends
      the loop with a `break`, in agreement with where the loop ends. */
  lemma LoopBreaks(runs: seq<GroupRun>, startAborted: bool, cancelAt: Option<nat>, i: nat,
                   acc: LoopState, calls0: seq<AnkiCall>, playLine0: Option<PlayLineData>)
    requires i < |runs| && !acc.aborted && runs[i].Ran? && runs[i].error.Some?
    requires cancelAt == Some(i) || runs[i].abortError
    requires StateBefore(acc, runs, startAborted, cancelAt, i, calls0, playLine0)
    ensures Describes(LoopFrom(runs, cancelAt, i, acc), runs, startAborted, cancelAt, calls0, playLine0,
                      LoopEndOf(runs, startAborted, cancelAt, i))
  {
    LoopStopsAtBreak(runs, startAborted, cancelAt, i, acc);
    BreakDescribed(runs, startAborted, cancelAt, i, acc, calls0, playLine0);
  }

  /** The state after a breaking group holds that group's requests but
      does not count it. */
  lemma BreakDescribed(runs: seq<GroupRun>, startAborted: bool, cancelAt: Option<nat>, i: nat,
                       acc: LoopState, calls0: seq<AnkiCall>, playLine0: Option<PlayLineData>)
    requires i < |runs| && !acc.aborted
    requires StateBefore(acc, runs, startAborted, cancelAt, i, calls0, playLine0)
    ensures Describes(AfterGroup(runs, cancelAt, i, acc), runs, startAborted, cancelAt, calls0, playLine0, BrokeAt(i))
  {
    PrefixStep(runs, i, playLine0);
    var fin := AfterGroup(runs, cancelAt, i, acc);
    assert fin.outcome == Pass && fin.failures == Failures(runs[..i]) && fin.done == i;
    var calls := runs[i].Calls();
    assert fin.calls == (calls0 + CallsOf(runs[..i])) + calls;
    assert CallsOf(runs[..i + 1]) == CallsOf(runs[..i]) + calls;
    AppendAssoc(calls0, CallsOf(runs[..i]), calls);
    assert fin.playLine == LastPlayLine(runs[..i + 1], playLine0);
    AbortedAfter(startAborted, cancelAt, i);
  }

  /** A `break` at group `i` ends the loop there with the group's requests. */
  lemma LoopStopsAtBreak(runs: seq<GroupRun>, startAborted: bool, cancelAt: Option<nat>, i: nat, acc: LoopState)
    requires i < |runs| && !acc.aborted && runs[i].Ran? && runs[i].error.Some?
    requires cancelAt == Some(i) || runs[i].abortError
    requires acc.aborted == AbortedBefore(startAborted, cancelAt, i)
    ensures LoopEndOf(runs, startAborted, cancelAt, i) == BrokeAt(i)
    ensures LoopFrom(runs, cancelAt, i, acc) == AfterGroup(runs, cancelAt, i, acc)
  {
  }

  /** Any other group that runs leaves the state before the next group. */
  lemma LoopPasses(runs: seq<GroupRun>, startAborted: bool, cancelAt: Option<nat>, i: nat,
                   acc: LoopState, calls0: seq<AnkiCall>, playLine0: Option<PlayLineData>)
    requires i < |runs| && !acc.aborted && runs[i].Ran?
    requires !(runs[i].error.Some? && (cancelAt == Some(i) || runs[i].abortError))
    requires StateBefore(acc, runs, startAborted, cancelAt, i, calls0, playLine0)
    ensures StateBefore(NextState(runs, cancelAt, i, acc), runs, startAborted, cancelAt, i + 1, calls0, playLine0)
  {
    PrefixStep(runs, i, playLine0);
    var next := NextState(runs, cancelAt, i, acc);
    var calls := runs[i].Calls();
    assert next.calls == (calls0 + CallsOf(runs[..i])) + calls;
    assert CallsOf(runs[..i + 1]) == CallsOf(runs[..i]) + calls;
    AppendAssoc(calls0, CallsOf(runs[..i]), calls);
    assert next.failures == Failures(runs[..i + 1]);
    assert next.playLine == LastPlayLine(runs[..i + 1], playLine0);
    AbortedAfter(startAborted, cancelAt, i);
  }

  /** When group `i` starts unaborted, the controller is aborted at the
      next group exactly when the user cancelled during group `i`. */
  lemma AbortedAfter(startAborted: bool, cancelAt: Option<nat>, i: nat)
    requires !AbortedBefore(startAborted, cancelAt, i)
    ensures AbortedBefore(startAborted, cancelAt, i + 1) == (cancelAt == Some(i))
  {
  }

  /** Where the loop ends is where it ends from the next group. */
  lemma EndSkipsGroup(runs: seq<GroupRun>, startAborted: bool, cancelAt: Option<nat>, i: nat,
                   acc: LoopState, calls0: seq<AnkiCall>, playLine0: Option<PlayLineData>)
    requires i < |runs| && !acc.aborted && runs[i].Ran?
    requires !(runs[i].error.Some? && (cancelAt == Some(i) || runs[i].abortError))
    requires StateBefore(acc, runs, startAborted, cancelAt, i, calls0, playLine0)
    ensures LoopEndOf(runs, startAborted, cancelAt, i) == LoopEndOf(runs, startAborted, cancelAt, i + 1)
  {
  }

  /** The loop goes on at the next group. */
  lemma LoopSkipsGroup(runs: seq<GroupRun>, cancelAt: Option<nat>, i: nat, acc: LoopState)
    requires i < |runs| && !acc.aborted && runs[i].Ran?
    requires !(runs[i].error.Some? && (cancelAt == Some(i) || runs[i].abortError))
    ensures LoopFrom(runs, cancelAt, i, acc) == LoopFrom(runs, cancelAt, i + 1, NextState(runs, cancelAt, i, acc))
  {
  }

  /** The requests, failures and playback request of one more group. */
  lemma PrefixStep(runs: seq<GroupRun>, i: nat, playLine0: Option<PlayLineData>)
    requires i < |runs|
    ensures CallsOf(runs[..i + 1]) == CallsOf(runs[..i]) + runs[i].Calls()
    ensures Failures(runs[..i + 1]) == Failures(runs[..i]) + (if runs[i].Failed() then 1 else 0)
    ensures LastPlayLine(runs[..i + 1], playLine0) ==
            if runs[i].Ran? && runs[i].playLine.Some? then runs[i].playLine else LastPlayLine(runs[..i], playLine0)
  {
    assert runs[..i + 1][..i] == runs[..i];
  }

  /** Of the application's stores, the export loop changes only the
      progress and the playback request. */
  predicate OnlyExportChanged(before: StoreValues, after: StoreValues) {
    WithoutExport(before) == WithoutExport(after)
  }

  /** The stores with the progress and the playback request blanked out. */
  function WithoutExport(v: StoreValues): StoreValues {
    v.(exportProgress := 0, playLine := None)
  }

  /** The loop of `exportToAnki` over precomputed group bodies `runs`: a
      throw when the controller is aborted as a group starts or the group
      is empty; otherwise the group's requests, its playback request, and,
      during group `cancelAt`, the user's cancellation; a failed group is
      counted unless the export was aborted, which ends the loop. */
  method RunGroups(st: AppState, client: AnkiClient, controller: AbortController, runs: seq<GroupRun>,
                   cancelAt: Option<nat>)
    returns (r: Outcome, failures: nat)
    modifies st, client, controller
    ensures var fin := LoopFrom(runs, cancelAt, 0, LoopState(Pass, 0, old(client.calls), 0,
                                                             old(st.values.playLine), old(controller.aborted)));
            r == fin.outcome && failures == fin.failures && client.calls == fin.calls &&
            OnlyExportChanged(old(st.values), st.values) &&
            st.values.playLine == fin.playLine &&
            st.values.exportProgress == (if fin.done == 0 then old(st.values.exportProgress) else Progress(fin.done, |runs|)) &&
            controller.aborted == fin.aborted
    ensures client.permissionGranted == old(client.permissionGranted) && client.key == old(client.key)
  {
    ghost var fin := LoopFrom(runs, cancelAt, 0, LoopState(Pass, 0, client.calls, 0,
                                                          st.values.playLine, controller.aborted));
    var n := |runs|;
    var i := 0;
    failures := 0;
    while i < n
      invariant 0 <= i <= n
      invariant fin == LoopFrom(runs, cancelAt, i, LoopState(Pass, failures, client.calls, i,
                                                             st.values.playLine, controller.aborted))
      invariant OnlyExportChanged(old(st.values), st.values)
      invariant st.values.exportProgress == if i == 0 then old(st.values.exportProgress) else Progress(i, n)
      invariant client.permissionGranted == old(client.permissionGranted) && client.key == old(client.key)
    {
      var stop;
      stop, r, failures := GroupStep(st, client, controller, runs, cancelAt, i, failures);
      if stop {
        return;
      }
      i := i + 1;
    }
    r := Pass;
  }

  /** The loop from group `i` is the turn at `i`, then the rest. */
  lemma LoopFromTurn(runs: seq<GroupRun>, cancelAt: Option<nat>, i: nat, acc: LoopState)
    requires i < |runs|
    ensures var t := TurnAt(runs, cancelAt, i, acc);
            LoopFrom(runs, cancelAt, i, acc) == if t.Stop? then t.state else LoopFrom(runs, cancelAt, i + 1, t.state)
  {
  }

  /** One turn of the export loop, at group `i`: either the loop stops
      there, with the loop's result, or it goes on at the next group. */
  method GroupStep(st: AppState, client: AnkiClient, controller: AbortController, runs: seq<GroupRun>,
                   cancelAt: Option<nat>, i: nat, failures: nat)
    returns (stop: bool, r: Outcome, failures': nat)
    requires i < |runs|
    modifies st, client, controller
    ensures var t := TurnAt(runs, cancelAt, i, LoopState(Pass, failures, old(client.calls), i,
                                                         old(st.values.playLine), old(controller.aborted)));
            stop == t.Stop? &&
            t.state == LoopState(r, failures', client.calls, if stop then i else i + 1,
                                 st.values.playLine, controller.aborted)
    ensures var acc := LoopState(Pass, failures, old(client.calls), i, old(st.values.playLine), old(controller.aborted));
            var cur := LoopState(r, failures', client.calls, if stop then i else i + 1,
                                 st.values.playLine, controller.aborted);
            LoopFrom(runs, cancelAt, i, acc) == if stop then cur else LoopFrom(runs, cancelAt, i + 1, cur)
    ensures !stop ==> r == Pass
    ensures OnlyExportChanged(old(st.values), st.values)
    ensures st.values.exportProgress == if stop then old(st.values.exportProgress) else Progress(i + 1, |runs|)
    ensures client.permissionGranted == old(client.permissionGranted) && client.key == old(client.key)
  {
    LoopFromTurn(runs, cancelAt, i, LoopState(Pass, failures, client.calls, i, st.values.playLine, controller.aborted));
    var check := ThrowIfAborted(controller);
    if check.Fail? {
      return true, check, failures;
    }
    if runs[i].Crashed? {
      return true, Fail(EmptyGroupMessage), failures;
    }
    stop, failures' := GroupBody(st, client, controller, runs, cancelAt, i, failures, Progress(i + 1, |runs|));
    r := Pass;
  }

  /** The body of one turn, once the controller is not aborted and the
      group has subtitles: the group's requests and cancellation, then a
      `break` or the failure count and the progress. */
  method GroupBody(st: AppState, client: AnkiClient, controller: AbortController, runs: seq<GroupRun>,
                   cancelAt: Option<nat>, i: nat, failures: nat, progress: int)
    returns (stop: bool, failures': nat)
    requires i < |runs| && runs[i].Ran? && !controller.aborted
    modifies st, client, controller
    ensures stop <==> runs[i].error.Some? && (cancelAt == Some(i) || runs[i].abortError)
    ensures failures' == failures + (if !stop && runs[i].Failed() then 1 else 0)
    ensures client.calls == old(client.calls) + runs[i].Calls()
    ensures st.values.playLine == if runs[i].playLine.Some? then runs[i].playLine else old(st.values.playLine)
    ensures controller.aborted == (cancelAt == Some(i))
    ensures OnlyExportChanged(old(st.values), st.values)
    ensures st.values.exportProgress == if stop then old(st.values.exportProgress) else progress
    ensures client.permissionGranted == old(client.permissionGranted) && client.key == old(client.key)
  {
    failures' := failures;
    var run := runs[i];
    RecordGroup(st, client, controller, run, cancelAt == Some(i));
    if run.error.Some? {
      if controller.aborted || run.abortError {
        return true, failures';
      }
      failures' := failures' + 1;
    }
    st.values := st.values.(exportProgress := progress);
    stop := false;
  }

  /** One group's body: its requests, its playback request and, when the
      user cancels during it, the controller's abort. */
  method RecordGroup(st: AppState, client: AnkiClient, controller: AbortController, run: GroupRun, cancelNow: bool)
    requires run.Ran?
    modifies st, client, controller
    ensures client.calls == old(client.calls) + run.Calls()
    ensures client.permissionGranted == old(client.permissionGranted) && client.key == old(client.key)
    ensures st.values == old(st.values).(playLine := if run.playLine.Some? then run.playLine else old(st.values.playLine))
    ensures controller.aborted == (old(controller.aborted) || cancelNow)
  {
    client.calls := client.calls + run.Calls();
    if run.playLine.Some? {
      st.values := st.values.(playLine := run.playLine);
    }
    if cancelNow {
      controller.Abort();
    }
  }

  /** An uninterrupted export sends every group's requests and counts
      every group that failed. */
  lemma {:induction false} UninterruptedExportCountsAll(runs: seq<GroupRun>)
    requires forall j :: 0 <= j < |runs| ==> runs[j].Ran? && !runs[j].abortError
    ensures LoopEndOf(runs, false, None, 0) == Completed
  {
    var k := |runs|;
    while k > 0
      invariant 0 <= k <= |runs| && LoopEndOf(runs, false, None, k) == Completed
    {
      k := k - 1;
    }
  }

  // ---------------------------------------------------------------------
  // exportToAnki
  // ---------------------------------------------------------------------

  /** How the requests before the loop settle. */
  datatype ExportReplies = ExportReplies(
    permission: Result<PermissionReply>,
    decksAndModels: Result<(seq<string>, seq<string>)>,
    modelFields: Result<seq<string>>,
    lastNotes: Result<seq<int>>,
    notesInfo: Result<seq<Card>>,
    selectedNotes: Result<seq<int>>,
    selectReply: Outcome)

  /** The start of `exportToAnki`: the player pauses unless FFmpeg cuts the
      audio, the last error and the progress are cleared and a new
      controller is published. */
  method BeginExport(st: AppState) returns (controller: AbortController)
    modifies st
    ensures fresh(controller) && !controller.aborted
    ensures st.values == old(st.values).(
              paused := old(st.values.paused) || old(st.values.settings.exportAudioProcessor) != AudioProcessor.Ffmpeg,
              lastError := "", exportProgress := 0, exportCancelController := controller)
  {
    if st.values.settings.exportAudioProcessor != AudioProcessor.Ffmpeg {
      st.values := st.values.(paused := true);
    }
    controller := new AbortController();
    st.values := st.values.(lastError := "", exportProgress := 0, exportCancelController := controller);
  }

  /** The refusal of `exportToAnki`: an invalid configuration, or an
      update AnkiConnect Android cannot do, ends the export with a message. */
  method GateExport(st: AppState, valid: bool, blockedUpdate: bool) returns (go: bool)
    modifies st
    ensures go <==> valid && !blockedUpdate
    ensures st.values == if go then old(st.values)
                         else old(st.values).(lastError := RefusalMessage(old(st.values.lastError), valid, blockedUpdate))
  {
    if !valid || blockedUpdate {
      st.values := st.values.(lastError := RefusalMessage(st.values.lastError, valid, blockedUpdate));
      return false;
    }
    return true;
  }

  /** For an update, the card to rewrite: the last card added today, or a
      refusal with the reason. */
  method FetchCard(st: AppState, isUpdate: bool, replies: ExportReplies) returns (go: bool, card: Option<Card>)
    modifies st
    ensures var found := CardForUpdate(replies.lastNotes, replies.notesInfo);
            (go <==> !isUpdate || found.Ok?) &&
            card == (if isUpdate && found.Ok? then Some(found.value) else None) &&
            st.values == if go then old(st.values)
                         else old(st.values).(lastError := "Failed to get card for update: " + found.message)
  {
    if !isUpdate {
      return true, None;
    }
    var found := CardForUpdate(replies.lastNotes, replies.notesInfo);
    if found.Err? {
      st.values := st.values.(lastError := "Failed to get card for update: " + found.message);
      return false, None;
    }
    return true, Some(found.value);
  }

  /** `exportToAnki(subtitlesToExport, isUpdate)`, where `replies` are how
      the Anki requests settle, `answers[i]` how group `i`'s audio and note
      requests settle, `cancelledEarly` says the user cancelled before the
      first group and `cancelAt` during which group. Nothing happens
      without a subtitle file, and nothing is sent to Anki unless the
      configuration verifies. */
  method ExportToAnki(st: AppState, client: AnkiClient, tool: Ffmpeg.Toolchain, groups: seq<seq<Subtitle>>,
                      isUpdate: bool, isMobile: bool, replies: ExportReplies, answers: seq<GroupAnswers>,
                      cancelledEarly: bool, cancelAt: Option<nat>)
    returns (r: Outcome)
    requires |answers| == |groups|
    modifies st, client, tool
    ensures old(st.values.currentSubtitleFile).None? ==>
              r == Pass && st.values == old(st.values) && client.calls == old(client.calls) &&
              tool.files == old(tool.files)
    ensures old(st.values.currentSubtitleFile).Some? ==>
              st.values.exportCancelController != null && fresh(st.values.exportCancelController)
    ensures var s := old(st.values.settings);
            var asked := PermissionOutcome(old(client.permissionGranted), replies.permission);
            client.calls != old(client.calls) ==>
              s.ankiUrl != "" && s.ankiDeck != "" && s.ankiModel != "" &&
              VerifyOf(s.ankiUrl, s.ankiDeck, s.ankiModel, s.ankiSentenceField, s.ankiSoundField,
                       AfterPermission(asked, replies.decksAndModels), replies.modelFields).verdict.valid
    ensures client.key == old(client.key)
  {
    if st.values.currentSubtitleFile.None? {
      return Pass;
    }
    var file := st.values.currentSubtitleFile.value;
    var audioFile := st.values.currentAudioFile;
    var s := st.values.settings;
    var controller := BeginExport(st);
    if cancelledEarly {
      controller.Abort();
    }
    var go, fields, card := PrepareExport(st, client, s, isUpdate, replies);
    if !go {
      return Pass;
    }
    var cfg := ConfigOf(s, file, audioFile, fields, card, isUpdate, isMobile);
    r := SendExport(st, client, tool, controller, cfg, RunsOf(cfg, groups, answers), st.values.isAnkiconnectAndroid,
                    replies, cancelAt);
  }

  /** The checks of `exportToAnki` before anything is sent: the settings
      `s` are verified, the export is refused when they are invalid or
      when it is an update AnkiConnect Android cannot do, and for an
      update the card to rewrite is fetched. */
  method PrepareExport(st: AppState, client: AnkiClient, s: Settings, isUpdate: bool, replies: ExportReplies)
    returns (go: bool, fields: seq<string>, card: Option<Card>)
    modifies st, client
    ensures var asked := PermissionOutcome(old(client.permissionGranted), replies.permission);
            var run := VerifyOf(s.ankiUrl, s.ankiDeck, s.ankiModel, s.ankiSentenceField, s.ankiSoundField,
                                AfterPermission(asked, replies.decksAndModels), replies.modelFields);
            go ==> s.ankiUrl != "" && s.ankiDeck != "" && s.ankiModel != "" && run.verdict.valid &&
                   fields == run.verdict.fields
    ensures go ==> !(isUpdate && st.values.isAnkiconnectAndroid) && (isUpdate <==> card.Some?)
    ensures st.values.exportCancelController == old(st.values.exportCancelController)
    ensures client.calls == old(client.calls) && client.key == old(client.key)
  {
    var verdict := VerifyAnkiSettings(st, client, s.ankiUrl, s.ankiDeck, s.ankiModel, s.ankiSentenceField,
                                      s.ankiSoundField, replies.permission, replies.decksAndModels, replies.modelFields);
    var android := st.values.isAnkiconnectAndroid;
    go := GateExport(st, verdict.valid, isUpdate && android);
    fields, card := verdict.fields, None;
    if go {
      go, card := FetchCard(st, isUpdate, replies);
    }
  }

  /** What every group of an export shares: the settings `s` read as the
      export starts, the verified field names, the card to update and the
      names of the subtitle and audio files without their extensions. */
  function ConfigOf(s: Settings, file: FileRef, audioFile: Option<FileRef>, fields: seq<string>, card: Option<Card>,
                    isUpdate: bool, isMobile: bool): ExportConfig
  {
    var subtitleName := BaseName(file.name);
    var audioName := if audioFile.Some? then BaseName(audioFile.value.name) else "";
    ExportConfig(isUpdate, isMobile, s.exportAudioProcessor == AudioProcessor.Ffmpeg, s.exportFieldMode,
                 s.exportAudioFormat, s.ankiDeck, s.ankiModel, s.ankiSentenceField, s.ankiSoundField,
                 s.ankiDuplicateMode, s.ankiDuplicateMode == AnkiDuplicateMode.Disabled && s.ankiAllowEmptyKeyField,
                 fields, subtitleName, audioName, audioFile.Some?,
                 NoteTags(card, s.ankiAddSubtitleTag, subtitleName, s.ankiAddAudioTag, audioName, TagListOf(s.ankiTagList)),
                 card)
  }

  /** The body of the export loop for each group. */
  function RunsOf(cfg: ExportConfig, groups: seq<seq<Subtitle>>, answers: seq<GroupAnswers>): (r: seq<GroupRun>)
    requires |answers| == |groups|
    ensures |r| == |groups|
    ensures forall i :: 0 <= i < |groups| ==> r[i] == GroupRunOf(cfg, groups[i], answers[i])
  {
    seq(|groups|, i requires 0 <= i < |groups| => GroupRunOf(cfg, groups[i], answers[i]))
  }

  /** The part of `exportToAnki` that talks to Anki: the selection in
      Anki's browser is put aside, every group is exported, the FFmpeg
      output files are deleted, the selection is restored and the failed
      groups are reported. The requests sent are those of the start, of
      every group the loop reached and, unless the loop threw, the one
      restoring the selection. */
  method SendExport(st: AppState, client: AnkiClient, tool: Ffmpeg.Toolchain, controller: AbortController,
                    cfg: ExportConfig, runs: seq<GroupRun>, android: bool, replies: ExportReplies, cancelAt: Option<nat>)
    returns (r: Outcome)
    modifies st, client, tool, controller
    ensures var start := StartExportOf(android, replies.selectedNotes, replies.selectReply);
            start.failure.Some? ==> r == Fail(start.failure.value) && client.calls == old(client.calls) + start.calls
    ensures var start := StartExportOf(android, replies.selectedNotes, replies.selectReply);
            var end := LoopEndOf(runs, old(controller.aborted), cancelAt, 0);
            var reached := Reached(end, |runs|);
            start.failure.None? ==>
              reached <= |runs| &&
              r == (if end.ThrewAt? then Fail(end.message) else Pass) &&
              client.calls == old(client.calls) + start.calls + CallsOf(runs[..reached]) +
                              (if end.ThrewAt? then [] else FinalizeCalls(start.lastNoteId))
    ensures var start := StartExportOf(android, replies.selectedNotes, replies.selectReply);
            var end := LoopEndOf(runs, old(controller.aborted), cancelAt, 0);
            var failed := Failures(runs[..Counted(end, |runs|)]);
            start.failure.None? && !end.ThrewAt? && failed > 0 ==>
              st.values.lastError == NatToString(failed) + " Export(s) failed"
    ensures st.values.exportCancelController == old(st.values.exportCancelController)
    ensures client.key == old(client.key)
  {
    var start := StartExportOf(android, replies.selectedNotes, replies.selectReply);
    client.calls := client.calls + start.calls;
    if start.failure.Some? {
      return Fail(start.failure.value);
    }
    LoopFromMeaning(runs, controller.aborted, cancelAt, 0,
                    LoopState(Pass, 0, client.calls, 0, st.values.playLine, controller.aborted),
                    client.calls, st.values.playLine);
    var failures;
    r, failures := RunGroups(st, client, controller, runs, cancelAt);
    if r.Fail? {
      return;
    }
    tool.CleanFiles(false);
    client.calls := client.calls + FinalizeCalls(start.lastNoteId);
    if failures > 0 {
      st.values := st.values.(lastError := NatToString(failures) + " Export(s) failed");
    }
  }
}
