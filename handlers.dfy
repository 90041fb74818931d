/**
 * The tool-call dispatcher of the voice application: for each call of a
 * batch it answers `get_next_form_field`, `validate_form_field`,
 * `save_form_field`, `generate_anmeldung_pdf` or an unknown tool, updates
 * the form state and emits at most one UI event, then sends all responses
 * together.  A `navigate_to_field` call invokes a method the form state does
 * not have, so the resulting error escapes the dispatcher and nothing is
 * sent.
 */
module Handlers {
  import opened Wrappers
  import opened Payload
  import opened FormModel
  import opened Fields
  import opened Validators
  import opened Validation
  import opened Events
  import opened ToolProtocol
  import AppState

  /** What the PDF generator and the file write did: the bytes written, or the error raised. */
  datatype GenerateOutcome = Written(sizeBytes: nat) | Failed(error: string)

  /** `_field_to_payload`: the field's metadata as sent to the model. */
  function FieldPayload(field: AnmeldungField): (j: map<string, Json>)
    ensures j.Keys == {"field_id", "label", "description", "field_type", "required", "examples", "constraints"}
    ensures j["field_id"] == JStr(field.fieldId) && j["label"] == JStr(field.fieldLabel)
    ensures j["field_type"] == JStr(field.validator.validatorType) && j["required"] == JBool(field.required)
    ensures j["examples"] == StrList(field.examples) && j["constraints"] == JObject(map[])
  {
    map[
      "field_id" := JStr(field.fieldId),
      "label" := JStr(field.fieldLabel),
      "description" := JStr(field.description),
      "field_type" := JStr(field.validator.validatorType),
      "required" := JBool(field.required),
      "examples" := StrList(field.examples),
      "constraints" := JObject(map[])
    ]
  }

  /** `voice_runner.get_current_session_id() or "default"`. */
  function SessionIdOf(current: Option<string>): (sid: string)
    ensures sid != []
    ensures current.Some? && current.value != [] ==> sid == current.value
  {
    if current.Some? && current.value != [] then current.value else "default"
  }

  /** Where the generated PDF is written, for a `%Y%m%d_%H%M%S` timestamp. */
  function PdfPath(timestamp: string): string {
    "output/anmeldung_" + timestamp + ".pdf"
  }

  predicate AllDispatchable(fields: seq<AnmeldungField>) {
    forall i :: 0 <= i < |fields| ==> Dispatchable(fields[i])
  }

  /** The `field_changed` event: which field is now current, where it sits and how far the form is. */
  function FieldChanged(f: Form<AnmeldungField>, field: AnmeldungField, sid: string): (e: FormEvent)
    ensures e.eventType == "field_changed" && e.sessionId == Some(sid)
    ensures e.data.Keys == {"field_id", "label", "description", "examples", "current_index", "progress_percent"}
    ensures e.data["field_id"] == JStr(field.fieldId) && e.data["current_index"] == JInt(f.currentIndex)
    ensures e.data["progress_percent"].JNum? && 0.0 <= e.data["progress_percent"].r <= 100.0
  {
    FormEvent("field_changed", map[
      "field_id" := JStr(field.fieldId),
      "label" := JStr(field.fieldLabel),
      "description" := JStr(field.description),
      "examples" := StrList(field.examples),
      "current_index" := JInt(f.currentIndex),
      "progress_percent" := JNum(f.Progress())
    ], Some(sid))
  }

  /** The `validation_result` event: the verdict on `value` for the field, with its message. */
  function ValidationEvent(field: AnmeldungField, value: string, r: ValidationResult, sid: string): (e: FormEvent)
    ensures e.eventType == "validation_result" && e.sessionId == Some(sid)
    ensures e.data.Keys == {"field_id", "value", "is_valid", "message"}
    ensures e.data["is_valid"] == JBool(r.isValid) && e.data["message"] == JStr(r.message)
    ensures e.data["field_id"] == JStr(field.fieldId) && e.data["value"] == JStr(value)
  {
    FormEvent("validation_result", map[
      "field_id" := JStr(field.fieldId),
      "value" := JStr(value),
      "is_valid" := JBool(r.isValid),
      "message" := JStr(r.message)
    ], Some(sid))
  }

  /** The `field_saved` event: the saved id and value, and the progress after the save. */
  function FieldSaved(field: AnmeldungField, value: string, progress: real, sid: string): (e: FormEvent)
    ensures e.eventType == "field_saved" && e.sessionId == Some(sid)
    ensures e.data.Keys == {"field_id", "value", "progress_percent"}
    ensures e.data["field_id"] == JStr(field.fieldId) && e.data["value"] == JStr(value)
    ensures e.data["progress_percent"] == JNum(progress)
  {
    FormEvent("field_saved", map[
      "field_id" := JStr(field.fieldId),
      "value" := JStr(value),
      "progress_percent" := JNum(progress)
    ], Some(sid))
  }

  /** The `form_complete` event: where the PDF was written and how many bytes it has. */
  function FormComplete(path: string, size: nat, sid: string): (e: FormEvent)
    ensures e.eventType == "form_complete" && e.sessionId == Some(sid)
    ensures e.data.Keys == {"pdf_location", "pdf_size_bytes"}
    ensures e.data["pdf_location"] == JStr(path) && e.data["pdf_size_bytes"].JInt? && e.data["pdf_size_bytes"].i >= 0
  {
    FormEvent("form_complete", map["pdf_location" := JStr(path), "pdf_size_bytes" := JInt(size)], Some(sid))
  }

  const NO_FIELD_TO_VALIDATE := "No field to validate. Call get_next_form_field first."
  const NO_FIELD_TO_SAVE := "No field to save. Call get_next_form_field first."
  const PDF_FAILED := "Failed to generate PDF. Please check all required fields are filled."

  /** What one call does: the new state, its response and the events it emitted. */
  datatype Outcome = Outcome(form: Form<AnmeldungField>, response: FunctionResponse, events: seq<FormEvent>)

  /** `get_next_form_field`: the current field's payload and a `field_changed` event, or `done`. */
  function GetNextStep(f: Form<AnmeldungField>, call: FunctionCall, sid: string): (o: Outcome)
    ensures o.form == f
  {
    match f.CurrentField()
    case None => Outcome(f, FunctionResponse(call.id, call.name, map["done" := JBool(true)]), [])
    case Some(field) =>
      Outcome(f, FunctionResponse(call.id, call.name, map["done" := JBool(false), "field" := JObject(FieldPayload(field))]),
              [FieldChanged(f, field, sid)])
  }

  /** `validate_form_field`: the current field checks `value`; a failure is stored as the field's error. */
  function ValidateStep(f: Form<AnmeldungField>, call: FunctionCall, sid: string): (o: Outcome)
    requires AllDispatchable(f.fields)
    ensures o.form.fields == f.fields
  {
    var value := Arg(call, "value", "");
    match f.CurrentField()
    case None =>
      Outcome(f, FunctionResponse(call.id, call.name,
        map["is_valid" := JBool(false), "message" := JStr(NO_FIELD_TO_VALIDATE)]), [])
    case Some(field) =>
      var r := ValidateField(field, value);
      var g := if r.isValid then f else f.WithError(field.fieldId, r.message);
      Outcome(g, FunctionResponse(call.id, call.name,
        map["is_valid" := JBool(r.isValid), "message" := JStr(r.message)]), [ValidationEvent(field, value, r, sid)])
  }

  /** `save_form_field`: `value` is stored for the current field, unvalidated, and the form advances. */
  function SaveStep(f: Form<AnmeldungField>, call: FunctionCall, sid: string): (o: Outcome)
    ensures o.form.fields == f.fields
  {
    var value := Arg(call, "value", "");
    match f.CurrentField()
    case None =>
      Outcome(f, FunctionResponse(call.id, call.name,
        map["ok" := JBool(false), "message" := JStr(NO_FIELD_TO_SAVE)]), [])
    case Some(field) =>
      var g := f.WithValue(field.fieldId, value).Advanced();
      Outcome(g, FunctionResponse(call.id, call.name,
        map["ok" := JBool(true), "progress_percent" := JNum(g.Progress())]), [FieldSaved(field, value, g.Progress(), sid)])
  }

  /** `generate_anmeldung_pdf`: the answers go to the generator; success emits `form_complete`. */
  function GenerateStep(f: Form<AnmeldungField>, call: FunctionCall, sid: string,
                        generate: map<string, string> -> GenerateOutcome, timestamp: string): (o: Outcome)
    ensures o.form == f
  {
    match generate(f.answers)
    case Written(size) =>
      var path := PdfPath(timestamp);
      Outcome(f, FunctionResponse(call.id, call.name, map[
          "ok" := JBool(true),
          "pdf_location" := JStr(path),
          "pdf_size_bytes" := JInt(size),
          "message" := JStr("Anmeldung PDF successfully generated and saved to " + path)]),
        [FormComplete(path, size, sid)])
    case Failed(error) =>
      Outcome(f, FunctionResponse(call.id, call.name,
        map["ok" := JBool(false), "error" := JStr(error), "message" := JStr(PDF_FAILED)]), [])
  }

  /**
   * One call of a batch, dispatched on the tool's name; `None` for
   * `navigate_to_field`, whose call raises.  The field list never changes
   * and at most one event is emitted.
   */
  function Step(f: Form<AnmeldungField>, call: FunctionCall, sid: string,
                generate: map<string, string> -> GenerateOutcome, timestamp: string): (o: Option<Outcome>)
    requires AllDispatchable(f.fields)
    ensures o.None? <==> call.name == "navigate_to_field"
    ensures o.Some? ==> o.value.form.fields == f.fields && |o.value.events| <= 1
    ensures o.Some? ==> o.value.response.id == call.id && o.value.response.name == call.name
  {
    if call.name == "get_next_form_field" then Some(GetNextStep(f, call, sid))
    else if call.name == "validate_form_field" then Some(ValidateStep(f, call, sid))
    else if call.name == "navigate_to_field" then None
    else if call.name == "save_form_field" then Some(SaveStep(f, call, sid))
    else if call.name == "generate_anmeldung_pdf" then Some(GenerateStep(f, call, sid, generate, timestamp))
    else Some(Outcome(f, FunctionResponse(call.id, call.name, map["error" := JStr("Unhandled tool " + call.name)]), []))
  }

  datatype Run = Run(form: Form<AnmeldungField>, responses: seq<FunctionResponse>, events: seq<FormEvent>, raised: bool)

  function RunCalls(f: Form<AnmeldungField>, calls: seq<FunctionCall>, sid: string,
                    generate: map<string, string> -> GenerateOutcome, timestamp: string): (r: Run)
    requires AllDispatchable(f.fields)
    ensures r.form.fields == f.fields
    decreases |calls|
  {
    if calls == [] then Run(f, [], [], false)
    else
      var prev := RunCalls(f, calls[..|calls| - 1], sid, generate, timestamp);
      if prev.raised then prev
      else match Step(prev.form, calls[|calls| - 1], sid, generate, timestamp)
        case None => prev.(raised := true)
        case Some(o) => Run(o.form, prev.responses + [o.response], prev.events + o.events, false)
  }
  /**
   * `handle_tool_calls`: the loop over the batch.  The state and the event
   * log end as the fold `RunCalls` describes; the responses are sent once if
   * there are any, and not at all when a call raised.
   */
  method HandleToolCalls(calls: seq<FunctionCall>, formState: AppState.FormState, log: EventLog,
                         currentSessionId: Option<string>,
                         generate: map<string, string> -> GenerateOutcome, timestamp: string)
    returns (outcome: BatchOutcome)
    requires AllDispatchable(formState.fields)
    modifies formState, log
    ensures var r := RunCalls(old(formState.Model()), calls, SessionIdOf(currentSessionId), generate, timestamp);
      && formState.Model() == r.form
      && log.entries == old(log.entries) + r.events
      && outcome == if r.raised then Raised("AttributeError") else Deliver(r.responses)
  {
    if calls == [] {
      return NothingSent;
    }
    var sid := SessionIdOf(currentSessionId);
    ghost var start := formState.Model();
    var responses: seq<FunctionResponse> := [];
    for i := 0 to |calls|
      invariant formState.fields == start.fields
      invariant var r := RunCalls(start, calls[..i], sid, generate, timestamp);
        !r.raised && formState.Model() == r.form && log.entries == old(log.entries) + r.events
        && responses == r.responses
    {
      var response := HandleNth(start, calls, i, formState, log, sid, generate, timestamp, old(log.entries));
      if response.None? {
        RaisedStays(start, calls, i + 1, sid, generate, timestamp);
        return Raised("AttributeError");
      }
      responses := responses + [response.value];
    }
    assert calls[..|calls|] == calls;
    outcome := Deliver(responses);
  }

  /** The `i`-th call of the batch, handled after the first `i` calls have not raised: one more step of the fold. */
  method HandleNth(ghost start: Form<AnmeldungField>, calls: seq<FunctionCall>, i: nat, formState: AppState.FormState,
                   log: EventLog, sid: string, generate: map<string, string> -> GenerateOutcome, timestamp: string,
                   ghost logStart: seq<FormEvent>)
    returns (response: Option<FunctionResponse>)
    requires AllDispatchable(start.fields) && i < |calls|
    requires var r := RunCalls(start, calls[..i], sid, generate, timestamp);
      !r.raised && formState.Model() == r.form && log.entries == logStart + r.events
    modifies formState, log
    ensures var r := RunCalls(start, calls[..i + 1], sid, generate, timestamp);
      && formState.fields == start.fields
      && formState.Model() == r.form && log.entries == logStart + r.events
      && (response.None? <==> r.raised)
      && (response.Some? ==>
            r.responses == RunCalls(start, calls[..i], sid, generate, timestamp).responses + [response.value])
  {
    ghost var prev := RunCalls(start, calls[..i], sid, generate, timestamp);
    response := HandleCall(calls[i], formState, log, sid, generate, timestamp);
    RunCallsStep(start, calls, i, sid, generate, timestamp);
    if response.Some? {
      ghost var events := Step(prev.form, calls[i], sid, generate, timestamp).value.events;
      AppendAssoc(logStart, prev.events, events);
    }
  }

  lemma AppendAssoc<T>(a: seq<T>, b: seq<T>, c: seq<T>)
    ensures a + b + c == a + (b + c)
  {
  }

  /** One more call of a batch that has not raised is one more step of the fold. */
  lemma RunCallsStep(f: Form<AnmeldungField>, calls: seq<FunctionCall>, i: nat, sid: string,
                     generate: map<string, string> -> GenerateOutcome, timestamp: string)
    requires AllDispatchable(f.fields) && i < |calls| && !RunCalls(f, calls[..i], sid, generate, timestamp).raised
    ensures var prev := RunCalls(f, calls[..i], sid, generate, timestamp);
      var o := Step(prev.form, calls[i], sid, generate, timestamp);
      RunCalls(f, calls[..i + 1], sid, generate, timestamp) ==
        if o.None? then prev.(raised := true)
        else Run(o.value.form, prev.responses + [o.value.response], prev.events + o.value.events, false)
  {
    assert calls[..i + 1][..i] == calls[..i];
  }

  /** The body of the loop: one call, dispatched on the tool's name; `None` when the call raises. */
  method HandleCall(call: FunctionCall, formState: AppState.FormState, log: EventLog, sid: string,
                    generate: map<string, string> -> GenerateOutcome, timestamp: string)
    returns (response: Option<FunctionResponse>)
    requires AllDispatchable(formState.fields)
    modifies formState, log
    ensures var o := Step(old(formState.Model()), call, sid, generate, timestamp);
      && (o.None? ==> response.None? && formState.Model() == old(formState.Model()) && log.entries == old(log.entries))
      && (o.Some? ==> response == Some(o.value.response) && formState.Model() == o.value.form
                      && log.entries == old(log.entries) + o.value.events)
  {
    var name := call.name;
    if name == "get_next_form_field" {
      var r := HandleGetNext(call, formState, log, sid);
      response := Some(r);
    } else if name == "validate_form_field" {
      var r := HandleValidate(call, formState, log, sid);
      response := Some(r);
    } else if name == "navigate_to_field" {
      response := None;
    } else if name == "save_form_field" {
      var r := HandleSave(call, formState, log, sid);
      response := Some(r);
    } else if name == "generate_anmeldung_pdf" {
      var r := HandleGenerate(call, formState, log, sid, generate, timestamp);
      response := Some(r);
    } else {
      response := Some(FunctionResponse(call.id, name, map["error" := JStr("Unhandled tool " + name)]));
    }
  }

  method HandleGetNext(call: FunctionCall, formState: AppState.FormState, log: EventLog, sid: string)
    returns (response: FunctionResponse)
    modifies log
    ensures var o := GetNextStep(formState.Model(), call, sid);
      response == o.response && log.entries == old(log.entries) + o.events
  {
    var field := formState.CurrentField();
    if field.None? {
      response := FunctionResponse(call.id, call.name, map["done" := JBool(true)]);
    } else {
      log.Emit(FieldChanged(formState.Model(), field.value, sid));
      response := FunctionResponse(call.id, call.name,
        map["done" := JBool(false), "field" := JObject(FieldPayload(field.value))]);
    }
  }

  method HandleValidate(call: FunctionCall, formState: AppState.FormState, log: EventLog, sid: string)
    returns (response: FunctionResponse)
    requires AllDispatchable(formState.fields)
    modifies formState, log
    ensures var o := ValidateStep(old(formState.Model()), call, sid);
      response == o.response && formState.Model() == o.form && log.entries == old(log.entries) + o.events
  {
    ghost var f := formState.Model();
    var value := Arg(call, "value", "");
    var field := formState.CurrentField();
    if field.None? {
      response := FunctionResponse(call.id, call.name,
        map["is_valid" := JBool(false), "message" := JStr(NO_FIELD_TO_VALIDATE)]);
    } else {
      assert f.CurrentField() == field;
      var r := ValidateField(field.value, value);
      RecordValidation(field.value, value, r, formState, log, sid);
      response := FunctionResponse(call.id, call.name,
        map["is_valid" := JBool(r.isValid), "message" := JStr(r.message)]);
    }
  }

  /** A validation's effects: the error is stored when the value was rejected, and the result is announced. */
  method RecordValidation(field: AnmeldungField, value: string, r: ValidationResult, formState: AppState.FormState,
                          log: EventLog, sid: string)
    modifies formState, log
    ensures formState.Model() ==
      if r.isValid then old(formState.Model()) else old(formState.Model()).WithError(field.fieldId, r.message)
    ensures log.entries == old(log.entries) + [ValidationEvent(field, value, r, sid)]
  {
    if !r.isValid {
      formState.SetError(field.fieldId, r.message);
    }
    log.Emit(ValidationEvent(field, value, r, sid));
  }

  method HandleSave(call: FunctionCall, formState: AppState.FormState, log: EventLog, sid: string)
    returns (response: FunctionResponse)
    modifies formState, log
    ensures var o := SaveStep(old(formState.Model()), call, sid);
      response == o.response && formState.Model() == o.form && log.entries == old(log.entries) + o.events
  {
    var value := Arg(call, "value", "");
    var field := formState.CurrentField();
    if field.None? {
      response := FunctionResponse(call.id, call.name,
        map["ok" := JBool(false), "message" := JStr(NO_FIELD_TO_SAVE)]);
    } else {
      formState.RecordValue(field.value.fieldId, value);
      var _ := formState.Advance();
      var progress := formState.ProgressPercent();
      log.Emit(FieldSaved(field.value, value, progress, sid));
      response := FunctionResponse(call.id, call.name,
        map["ok" := JBool(true), "progress_percent" := JNum(progress)]);
    }
  }

  method HandleGenerate(call: FunctionCall, formState: AppState.FormState, log: EventLog, sid: string,
                        generate: map<string, string> -> GenerateOutcome, timestamp: string)
    returns (response: FunctionResponse)
    modifies log
    ensures var o := GenerateStep(formState.Model(), call, sid, generate, timestamp);
      response == o.response && log.entries == old(log.entries) + o.events
  {
    var generated := generate(formState.answers);
    if generated.Written? {
      var path := PdfPath(timestamp);
      log.Emit(FormComplete(path, generated.sizeBytes, sid));
      response := FunctionResponse(call.id, call.name, map[
        "ok" := JBool(true),
        "pdf_location" := JStr(path),
        "pdf_size_bytes" := JInt(generated.sizeBytes),
        "message" := JStr("Anmeldung PDF successfully generated and saved to " + path)]);
    } else {
      response := FunctionResponse(call.id, call.name,
        map["ok" := JBool(false), "error" := JStr(generated.error), "message" := JStr(PDF_FAILED)]);
    }
  }

  /** Once a call has raised, the rest of the batch changes nothing. */
  lemma {:induction false} RaisedStays(f: Form<AnmeldungField>, calls: seq<FunctionCall>, k: nat, sid: string,
                                       generate: map<string, string> -> GenerateOutcome, timestamp: string)
    requires AllDispatchable(f.fields) && k <= |calls|
    requires RunCalls(f, calls[..k], sid, generate, timestamp).raised
    ensures RunCalls(f, calls, sid, generate, timestamp) == RunCalls(f, calls[..k], sid, generate, timestamp)
    decreases |calls| - k
  {
    if k < |calls| {
      assert calls[..k + 1][..k] == calls[..k];
      RaisedStays(f, calls, k + 1, sid, generate, timestamp);
    } else {
      assert calls[..k] == calls;
    }
  }

  /** A batch raises exactly when it holds a `navigate_to_field` call. */
  lemma {:induction false} RaisedIffNavigate(f: Form<AnmeldungField>, calls: seq<FunctionCall>, sid: string,
                                             generate: map<string, string> -> GenerateOutcome, timestamp: string)
    requires AllDispatchable(f.fields)
    ensures RunCalls(f, calls, sid, generate, timestamp).raised <==>
      exists i :: 0 <= i < |calls| && calls[i].name == "navigate_to_field"
    decreases |calls|
  {
    if calls != [] {
      var init := calls[..|calls| - 1];
      RaisedIffNavigate(f, init, sid, generate, timestamp);
      if exists i :: 0 <= i < |init| && init[i].name == "navigate_to_field" {
        var i :| 0 <= i < |init| && init[i].name == "navigate_to_field";
        assert calls[i] == init[i];
      }
      if exists i :: 0 <= i < |calls| && calls[i].name == "navigate_to_field" {
        var i :| 0 <= i < |calls| && calls[i].name == "navigate_to_field";
        if i < |calls| - 1 {
          assert init[i] == calls[i];
        }
      }
    }
  }

  /**
   * Without a `navigate_to_field` call, every call gets exactly one response,
   * in order, echoing its id and name; each call emits at most one event.
   */
  lemma {:induction false} OneResponsePerCall(f: Form<AnmeldungField>, calls: seq<FunctionCall>, sid: string,
                                              generate: map<string, string> -> GenerateOutcome, timestamp: string)
    requires AllDispatchable(f.fields)
    requires forall i :: 0 <= i < |calls| ==> calls[i].name != "navigate_to_field"
    ensures var r := RunCalls(f, calls, sid, generate, timestamp);
      !r.raised && Answers(calls, r.responses) && |r.events| <= |calls|
    decreases |calls|
  {
    if calls != [] {
      var init := calls[..|calls| - 1];
      OneResponsePerCall(f, init, sid, generate, timestamp);
      var prev := RunCalls(f, init, sid, generate, timestamp);
      var o := Step(prev.form, calls[|calls| - 1], sid, generate, timestamp);
      assert RunCalls(f, calls, sid, generate, timestamp).responses == prev.responses + [o.value.response];
      forall i | 0 <= i < |calls| - 1
        ensures RunCalls(f, calls, sid, generate, timestamp).responses[i].id == calls[i].id
        ensures RunCalls(f, calls, sid, generate, timestamp).responses[i].name == calls[i].name
      {
        assert init[i] == calls[i];
      }
    }
  }

  /** An empty batch sends nothing and changes nothing. */
  lemma EmptyBatch(f: Form<AnmeldungField>, sid: string,
                   generate: map<string, string> -> GenerateOutcome, timestamp: string)
    requires AllDispatchable(f.fields)
    ensures RunCalls(f, [], sid, generate, timestamp) == Run(f, [], [], false)
  {
  }

  /** `get_next_form_field` never changes the state; it answers `done` exactly when the form is complete, and only then emits nothing. */
  lemma GetNextPure(f: Form<AnmeldungField>, call: FunctionCall, sid: string)
    ensures var o := GetNextStep(f, call, sid);
      && o.form == f
      && o.response.response["done"] == JBool(f.IsComplete())
      && (o.events == [] <==> f.IsComplete())
      && (!f.IsComplete() ==>
            o.events == [FieldChanged(f, f.fields[f.currentIndex], sid)]
            && o.response.response["field"] == JObject(FieldPayload(f.fields[f.currentIndex])))
  {
  }

  /**
   * `validate_form_field` checks the current field, whatever `field_id` the
   * call names: answers and index are unchanged, a failure becomes that
   * field's error and nothing else changes, and one `validation_result`
   * event is emitted.
   */
  lemma ValidateOnlySetsError(f: Form<AnmeldungField>, call: FunctionCall, sid: string, otherId: string)
    requires AllDispatchable(f.fields)
    ensures var o := ValidateStep(f, call, sid);
      && o.form.answers == f.answers && o.form.currentIndex == f.currentIndex
      && ValidateStep(f, call.(args := call.args["field_id" := otherId]), sid) == o
      && (f.IsComplete() ==> o.form == f && o.events == [] && o.response.response["is_valid"] == JBool(false))
      && (!f.IsComplete() ==>
            var field := f.fields[f.currentIndex];
            var r := ValidateField(field, Arg(call, "value", ""));
            && o.events == [ValidationEvent(field, Arg(call, "value", ""), r, sid)]
            && o.response.response["is_valid"] == JBool(r.isValid)
            && o.form.errors == if r.isValid then f.errors else f.errors[field.fieldId := r.message])
  {
    assert Arg(call.(args := call.args["field_id" := otherId]), "value", "") == Arg(call, "value", "");
  }

  /**
   * `save_form_field` stores the value for the current field without
   * validating it and moves one field on; the event and the response carry
   * the progress after the move.  With no current field nothing changes.
   */
  lemma SaveRecordsAndAdvances(f: Form<AnmeldungField>, call: FunctionCall, sid: string)
    ensures var o := SaveStep(f, call, sid);
      && (f.IsComplete() ==> o.form == f && o.events == [] && o.response.response["ok"] == JBool(false))
      && (!f.IsComplete() ==>
            var value := Arg(call, "value", "");
            && o.form == f.SaveCurrent(AppState.FieldIdOf, value)
            && o.form.answers[f.fields[f.currentIndex].fieldId] == value
            && o.form.currentIndex == f.currentIndex + 1
            && o.events == [FieldSaved(f.fields[f.currentIndex], value, o.form.Progress(), sid)]
            && o.response.response["progress_percent"] == JNum(o.form.Progress())
            && f.Progress() <= o.form.Progress())
  {
    if !f.IsComplete() {
      WithValueProgress(f, f.fields[f.currentIndex].fieldId, Arg(call, "value", ""));
    }
  }

  /** PDF generation never changes the state; a failure is answered, not raised, and only success emits an event. */
  lemma GenerateNeverMutates(f: Form<AnmeldungField>, call: FunctionCall, sid: string,
                             generate: map<string, string> -> GenerateOutcome, timestamp: string)
    ensures var o := GenerateStep(f, call, sid, generate, timestamp);
      && o.form == f
      && (generate(f.answers).Failed? ==>
            o.events == [] && o.response.response["ok"] == JBool(false)
            && o.response.response["error"] == JStr(generate(f.answers).error))
      && (generate(f.answers).Written? ==>
            o.events == [FormComplete(PdfPath(timestamp), generate(f.answers).sizeBytes, sid)]
            && o.response.response["ok"] == JBool(true))
  {
  }

  /** An unknown tool, including the correction tool the model is offered, is answered with an error and changes nothing. */
  lemma UnknownToolIgnored(f: Form<AnmeldungField>, call: FunctionCall, sid: string,
                           generate: map<string, string> -> GenerateOutcome, timestamp: string)
    requires AllDispatchable(f.fields)
    requires call.name !in {"get_next_form_field", "validate_form_field", "navigate_to_field",
                            "save_form_field", "generate_anmeldung_pdf"}
    ensures var o := Step(f, call, sid, generate, timestamp);
      && o.Some? && o.value.form == f && o.value.events == []
      && o.value.response.response == map["error" := JStr("Unhandled tool " + call.name)]
  {
  }

  /** The `value` argument of each call of a batch, in order (`""` where it is missing). */
  function ValueArgs(calls: seq<FunctionCall>): (vs: seq<string>)
    ensures |vs| == |calls|
    ensures forall i :: 0 <= i < |calls| ==> vs[i] == Arg(calls[i], "value", "")
    decreases |calls|
  {
    if calls == [] then []
    else
      var init := ValueArgs(calls[..|calls| - 1]);
      assert forall i :: 0 <= i < |calls| - 1 ==> calls[..|calls| - 1][i] == calls[i];
      init + [Arg(calls[|calls| - 1], "value", "")]
  }

  /**
   * A batch of `save_form_field` calls, one per remaining field, records the
   * values in field order: the result is the form's own `SaveAll`.
   */
  lemma {:induction false} SavesFillInOrder(f: Form<AnmeldungField>, calls: seq<FunctionCall>, sid: string,
                                            generate: map<string, string> -> GenerateOutcome, timestamp: string)
    requires AllDispatchable(f.fields) && f.currentIndex + |calls| <= |f.fields|
    requires forall i :: 0 <= i < |calls| ==> calls[i].name == "save_form_field"
    ensures !RunCalls(f, calls, sid, generate, timestamp).raised
    ensures RunCalls(f, calls, sid, generate, timestamp).form == f.SaveAll(AppState.FieldIdOf, ValueArgs(calls))
    decreases |calls|
  {
    if calls != [] {
      var init, last := calls[..|calls| - 1], calls[|calls| - 1];
      SavesFillInOrder(f, init, sid, generate, timestamp);
      SaveAllSnoc(f, AppState.FieldIdOf, ValueArgs(init), Arg(last, "value", ""));
      var prev := RunCalls(f, init, sid, generate, timestamp);
      StepSave(prev.form, last, sid, generate, timestamp);
      SaveRecordsAndAdvances(prev.form, last, sid);
    }
  }

  /** A `save_form_field` call is dispatched to the save handler. */
  lemma StepSave(f: Form<AnmeldungField>, call: FunctionCall, sid: string,
                 generate: map<string, string> -> GenerateOutcome, timestamp: string)
    requires AllDispatchable(f.fields) && call.name == "save_form_field"
    ensures Step(f, call, sid, generate, timestamp) == Some(SaveStep(f, call, sid))
  {
    assert call.name[0] == 's';
  }

  /** Answers are only ever stored under ids of the form's own fields. */
  lemma {:induction false} AnswersStayInFields(f: Form<AnmeldungField>, calls: seq<FunctionCall>, sid: string,
                                               generate: map<string, string> -> GenerateOutcome, timestamp: string)
    requires AllDispatchable(f.fields)
    ensures RunCalls(f, calls, sid, generate, timestamp).form.answers.Keys <=
      f.answers.Keys + IdSet(f.fields, AppState.FieldIdOf)
    decreases |calls|
  {
    if calls != [] {
      AnswersStayInFields(f, calls[..|calls| - 1], sid, generate, timestamp);
      var prev := RunCalls(f, calls[..|calls| - 1], sid, generate, timestamp);
      StepAnswerKeys(prev.form, calls[|calls| - 1], sid, generate, timestamp);
    }
  }

  /** One call stores an answer, if at all, only under the id of one of the form's fields. */
  lemma StepAnswerKeys(f: Form<AnmeldungField>, call: FunctionCall, sid: string,
                       generate: map<string, string> -> GenerateOutcome, timestamp: string)
    requires AllDispatchable(f.fields)
    ensures var o := Step(f, call, sid, generate, timestamp);
      o.Some? ==> o.value.form.answers.Keys <= f.answers.Keys + IdSet(f.fields, AppState.FieldIdOf)
  {
    if call.name == "save_form_field" {
      StepSave(f, call, sid, generate, timestamp);
      SaveRecordsAndAdvances(f, call, sid);
      if !f.IsComplete() {
        assert AppState.FieldIdOf(f.fields[f.currentIndex]) in IdSet(f.fields, AppState.FieldIdOf);
      }
    }
  }
}
