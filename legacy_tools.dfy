/**
 * The first tool-call dispatcher, over the legacy form state: the model
 * names the field it validates or saves, and the field is looked up by id
 * in the form's field list.  Saving a known field records it and advances
 * whether or not it was the current one.
 */
module LegacyTools {
  import opened Wrappers
  import opened Payload
  import opened FormModel
  import opened Validators
  import opened ToolProtocol
  import opened LegacyState

  /** `_field_to_payload`: absent examples and constraints are sent empty. */
  function FieldPayload(field: FormField): (j: map<string, Json>)
    ensures j.Keys == {"field_id", "label", "description", "field_type", "required", "examples", "constraints"}
    ensures j["field_id"] == JStr(field.fieldId) && j["field_type"] == JStr(field.fieldType)
    ensures field.examples.None? ==> j["examples"] == JList([])
    ensures field.constraints.None? ==> j["constraints"] == JObject(map[])
    ensures field.constraints.Some? ==> j["constraints"].JObject? && j["constraints"].entries.Keys == field.constraints.value.Keys
  {
    var constraints := field.constraints.GetOr(map[]);
    map[
      "field_id" := JStr(field.fieldId),
      "label" := JStr(field.fieldLabel),
      "description" := JStr(field.description),
      "field_type" := JStr(field.fieldType),
      "required" := JBool(field.required),
      "examples" := StrList(field.examples.GetOr([])),
      "constraints" := JObject(map k | k in constraints :: JStr(constraints[k]))
    ]
  }

  /** The first field in list order whose id is `id`. */
  function FirstWithId(fields: seq<FormField>, id: string): (r: Option<FormField>)
    ensures r.None? <==> forall i :: 0 <= i < |fields| ==> fields[i].fieldId != id
    ensures r.Some? ==>
      exists i :: 0 <= i < |fields| && fields[i] == r.value && forall j :: 0 <= j < i ==> fields[j].fieldId != id
    ensures r.Some? ==> r.value.fieldId == id
  {
    if fields == [] then None
    else if fields[0].fieldId == id then Some(fields[0])
    else
      var r := FirstWithId(fields[1..], id);
      assert forall i :: 1 <= i < |fields| ==> fields[i] == fields[1..][i - 1];
      if r.Some? then
        assert exists i :: 0 <= i < |fields| && fields[i] == r.value && forall j :: 0 <= j < i ==> fields[j].fieldId != id by {
          var k :| 0 <= k < |fields[1..]| && fields[1..][k] == r.value && forall j :: 0 <= j < k ==> fields[1..][j].fieldId != id;
          assert fields[k + 1] == r.value;
          assert forall j :: 0 <= j < k + 1 ==> fields[j].fieldId != id by {
            forall j | 0 <= j < k + 1 ensures fields[j].fieldId != id {
              if j > 0 {
                assert fields[j] == fields[1..][j - 1];
              }
            }
          }
        }
        r
      else r
  }

  /** `_find_field`: no id or an empty id finds nothing; otherwise the first field with that id. */
  function FindSpec(fields: seq<FormField>, fieldId: Option<string>): (r: Option<FormField>)
    ensures r.Some? ==> fieldId.Some? && r.value.fieldId == fieldId.value != [] && r.value in fields
    ensures r.None? <==>
      fieldId.None? || fieldId.value == [] || forall i :: 0 <= i < |fields| ==> fields[i].fieldId != fieldId.value
  {
    if fieldId.None? || fieldId.value == [] then None else FirstWithId(fields, fieldId.value)
  }

  /** `_find_field`: a linear search with an early return. */
  method FindField(formState: FormState, fieldId: Option<string>) returns (r: Option<FormField>)
    ensures r == FindSpec(formState.fields, fieldId)
  {
    if fieldId.None? || fieldId.value == [] {
      return None;
    }
    var fields := formState.fields;
    for i := 0 to |fields|
      invariant forall j :: 0 <= j < i ==> fields[j].fieldId != fieldId.value
    {
      if fields[i].fieldId == fieldId.value {
        assert FirstWithId(fields, fieldId.value) == Some(fields[i]) by {
          var r := FirstWithId(fields, fieldId.value);
          assert r.Some?;
          var k :| 0 <= k < |fields| && fields[k] == r.value
            && forall j :: 0 <= j < k ==> fields[j].fieldId != fieldId.value;
          assert fields[k].fieldId == fieldId.value;
          assert k == i;
        }
        return Some(fields[i]);
      }
    }
    return None;
  }

  /** With distinct ids, the search finds each field by its own id. */
  lemma FindsEachField(fields: seq<FormField>, i: nat)
    requires DistinctIds(fields, FieldIdOf) && i < |fields| && fields[i].fieldId != []
    ensures FindSpec(fields, Some(fields[i].fieldId)) == Some(fields[i])
  {
    var r := FirstWithId(fields, fields[i].fieldId);
    var k :| 0 <= k < |fields| && fields[k] == r.value && forall j :: 0 <= j < k ==> fields[j].fieldId != fields[i].fieldId;
    assert FieldIdOf(fields[k]) == FieldIdOf(fields[i]);
    assert k == i;
  }

  /** `args.get("field_id")`: absent when the call has no such argument. */
  function FieldIdArg(call: FunctionCall): Option<string> {
    if "field_id" in call.args then Some(call.args["field_id"]) else None
  }

  const UNKNOWN_FIELD := "Unknown field."

  /** One call: the new state and its response.  `check` is the field validator. */
  datatype Outcome = Outcome(form: Form<FormField>, response: FunctionResponse)

  function Step(f: Form<FormField>, call: FunctionCall, check: (FormField, string) -> ValidationResult): (o: Outcome)
    ensures o.form.fields == f.fields
    ensures o.response.id == call.id && o.response.name == call.name
  {
    var respond := (payload: map<string, Json>) => FunctionResponse(call.id, call.name, payload);
    var value := Arg(call, "value", "");
    if call.name == "get_next_form_field" then
      match f.CurrentField()
      case None => Outcome(f, respond(map["done" := JBool(true)]))
      case Some(field) => Outcome(f, respond(map["done" := JBool(false), "field" := JObject(FieldPayload(field))]))
    else if call.name == "validate_form_field" then
      match FindSpec(f.fields, FieldIdArg(call))
      case None => Outcome(f, respond(map["is_valid" := JBool(false), "message" := JStr(UNKNOWN_FIELD)]))
      case Some(field) =>
        var r := check(field, value);
        Outcome(if r.isValid then f else f.WithError(field.fieldId, r.message),
                respond(map["is_valid" := JBool(r.isValid), "message" := JStr(r.message)]))
    else if call.name == "save_form_field" then
      match FindSpec(f.fields, FieldIdArg(call))
      case None => Outcome(f, respond(map["ok" := JBool(false), "message" := JStr(UNKNOWN_FIELD)]))
      case Some(field) =>
        var g := f.WithValue(FieldIdArg(call).value, value).Advanced();
        Outcome(g, respond(map["ok" := JBool(true), "progress_percent" := JNum(g.Progress())]))
    else
      Outcome(f, respond(map["error" := JStr("Unhandled tool " + call.name)]))
  }

  /** The state after a prefix of the batch and the responses built for it. */
  function RunCalls(f: Form<FormField>, calls: seq<FunctionCall>, check: (FormField, string) -> ValidationResult)
    : (r: (Form<FormField>, seq<FunctionResponse>))
    ensures r.0.fields == f.fields
    ensures Answers(calls, r.1)
    decreases |calls|
  {
    if calls == [] then (f, [])
    else
      var prev := RunCalls(f, calls[..|calls| - 1], check);
      var o := Step(prev.0, calls[|calls| - 1], check);
      assert forall i :: 0 <= i < |calls| - 1 ==> calls[..|calls| - 1][i] == calls[i];
      (o.form, prev.1 + [o.response])
  }

  /**
   * `handle_tool_calls` of the first dispatcher: one response per call, in
   * order, sent once when there is at least one.
   */
  method HandleToolCalls(calls: seq<FunctionCall>, formState: FormState, check: (FormField, string) -> ValidationResult)
    returns (outcome: BatchOutcome)
    modifies formState
    ensures formState.Model() == RunCalls(old(formState.Model()), calls, check).0
    ensures outcome == Deliver(RunCalls(old(formState.Model()), calls, check).1)
    ensures outcome.Sent? ==> Answers(calls, outcome.responses)
  {
    if calls == [] {
      return NothingSent;
    }
    ghost var start := formState.Model();
    var responses: seq<FunctionResponse> := [];
    for i := 0 to |calls|
      invariant formState.Model() == RunCalls(start, calls[..i], check).0
      invariant responses == RunCalls(start, calls[..i], check).1
    {
      assert calls[..i + 1][..i] == calls[..i];
      var response := HandleCall(calls[i], formState, check);
      responses := responses + [response];
    }
    assert calls[..|calls|] == calls;
    outcome := Deliver(responses);
  }

  /** The loop body: one call dispatched on the tool's name. */
  method HandleCall(call: FunctionCall, formState: FormState, check: (FormField, string) -> ValidationResult)
    returns (response: FunctionResponse)
    modifies formState
    ensures var o := Step(old(formState.Model()), call, check);
      response == o.response && formState.Model() == o.form
  {
    var name := call.name;
    var value := Arg(call, "value", "");
    if name == "get_next_form_field" {
      var field := formState.CurrentField();
      if field.None? {
        response := FunctionResponse(call.id, name, map["done" := JBool(true)]);
      } else {
        response := FunctionResponse(call.id, name, map["done" := JBool(false), "field" := JObject(FieldPayload(field.value))]);
      }
    } else if name == "validate_form_field" {
      var fieldId := FieldIdArg(call);
      var field := FindField(formState, fieldId);
      if field.None? {
        response := FunctionResponse(call.id, name, map["is_valid" := JBool(false), "message" := JStr(UNKNOWN_FIELD)]);
      } else {
        var r := check(field.value, value);
        if !r.isValid {
          formState.SetError(field.value.fieldId, r.message);
        }
        response := FunctionResponse(call.id, name, map["is_valid" := JBool(r.isValid), "message" := JStr(r.message)]);
      }
    } else if name == "save_form_field" {
      var fieldId := FieldIdArg(call);
      var field := FindField(formState, fieldId);
      if field.None? {
        response := FunctionResponse(call.id, name, map["ok" := JBool(false), "message" := JStr(UNKNOWN_FIELD)]);
      } else {
        formState.RecordValue(fieldId.value, value);
        var _ := formState.Advance();
        var progress := formState.ProgressPercent();
        response := FunctionResponse(call.id, name, map["ok" := JBool(true), "progress_percent" := JNum(progress)]);
      }
    } else {
      response := FunctionResponse(call.id, name, map["error" := JStr("Unhandled tool " + name)]);
    }
  }

  /** `get_next_form_field` changes nothing and answers `done` exactly when the form is complete. */
  lemma GetNextPure(f: Form<FormField>, call: FunctionCall, check: (FormField, string) -> ValidationResult)
    requires call.name == "get_next_form_field"
    ensures Step(f, call, check).form == f
    ensures Step(f, call, check).response.response["done"] == JBool(f.IsComplete())
  {
  }

  /**
   * Validating: an unknown or missing id changes nothing; a known id with a
   * refused value stores the error under that id and nothing else; an
   * accepted value changes nothing.
   */
  lemma ValidateByName(f: Form<FormField>, call: FunctionCall, check: (FormField, string) -> ValidationResult)
    requires call.name == "validate_form_field"
    ensures var o := Step(f, call, check);
      && (FindSpec(f.fields, FieldIdArg(call)).None? ==>
            o.form == f && o.response.response["message"] == JStr(UNKNOWN_FIELD))
      && (FindSpec(f.fields, FieldIdArg(call)).Some? ==>
            var r := check(FindSpec(f.fields, FieldIdArg(call)).value, Arg(call, "value", ""));
            o.form == if r.isValid then f else f.(errors := f.errors[FieldIdArg(call).value := r.message]))
  {
  }

  /**
   * Saving a known field records the value under that id and advances by
   * one, whichever field is current: naming any field but the current one
   * moves past the current field without answering it.
   */
  lemma SaveSkipsCurrent(f: Form<FormField>, call: FunctionCall, check: (FormField, string) -> ValidationResult)
    requires call.name == "save_form_field"
    requires FindSpec(f.fields, FieldIdArg(call)).Some?
    requires f.CurrentField().Some? && f.CurrentField().value.fieldId != FieldIdArg(call).value
    requires f.CurrentField().value.fieldId !in f.answers
    ensures var g := Step(f, call, check).form;
      && g.currentIndex == f.currentIndex + 1
      && g.answers[FieldIdArg(call).value] == Arg(call, "value", "")
      && f.fields[f.currentIndex].fieldId !in g.answers
  {
  }

  /** Saving with an unknown, missing or empty id changes nothing. */
  lemma SaveUnknownNoChange(f: Form<FormField>, call: FunctionCall, check: (FormField, string) -> ValidationResult)
    requires call.name == "save_form_field"
    requires FindSpec(f.fields, FieldIdArg(call)).None?
    ensures Step(f, call, check).form == f
    ensures Step(f, call, check).response.response["ok"] == JBool(false)
  {
  }
}
