/**
 * The server's session map and the state logic of its endpoints: sessions
 * created on demand, deleted on request, edited field by field, and kept in
 * step with the voice pipeline by replaying its `field_saved` events.
 */
module Server {
  import opened Wrappers
  import opened Payload
  import opened FormModel
  import opened Fields
  import opened Validators
  import opened Validation
  import opened Events
  import AppState
  import Handlers

  /** A reply of an endpoint: its value, or the HTTP error it raises. */
  datatype Reply<T> = Ok(value: T) | HttpError(status: int, detail: string)

  /** `FieldUpdateResponse`. */
  datatype FieldUpdate = FieldUpdate(ok: bool, isValid: bool, message: string)

  /**
   * The replay of one `field_saved` event on a form: the value is recorded,
   * then the form advances only if the field now current is the saved one.
   */
  function ApplyFieldSaved(f: Form<AnmeldungField>, fieldId: string, value: string): (g: Form<AnmeldungField>)
    ensures g.answers == f.answers[fieldId := value] && g.errors == f.errors - {fieldId} && g.fields == f.fields
    ensures g.currentIndex == if f.CurrentField().Some? && f.fields[f.currentIndex].fieldId == fieldId
                              then f.currentIndex + 1 else f.currentIndex
  {
    var g := f.WithValue(fieldId, value);
    match g.CurrentField()
    case Some(current) => if current.fieldId == fieldId then g.Advanced() else g
    case None => g
  }

  /**
   * The data a replayed `field_saved` event can carry: a truthy `field_id`
   * is a string, and a present, non-null `value` is a string.
   */
  predicate WellTypedSaved(data: map<string, Json>) {
    && ("field_id" in data && Truthy(data["field_id"]) ==> data["field_id"].JStr?)
    && ("value" in data && data["value"] != JNull ==> data["value"].JStr?)
  }

  /** The id and value a `field_saved` event records, when it has both. */
  function SavedPair(data: map<string, Json>): (p: Option<(string, string)>)
    requires WellTypedSaved(data)
    ensures p.Some? <==> "field_id" in data && Truthy(data["field_id"]) && "value" in data && data["value"] != JNull
    ensures p.Some? ==> data["field_id"] == JStr(p.value.0) && p.value.0 != [] && data["value"] == JStr(p.value.1)
  {
    if "field_id" in data && Truthy(data["field_id"]) && "value" in data && data["value"] != JNull
    then Some((data["field_id"].s, data["value"].s))
    else None
  }

  /** `sync_form_state_from_events` on the forms of all sessions. */
  function Sync(forms: map<string, Form<AnmeldungField>>, event: FormEvent): (r: map<string, Form<AnmeldungField>>)
    requires WellTypedSaved(event.data)
    ensures r.Keys == forms.Keys
    ensures event.sessionId.None? || event.sessionId.value !in forms || event.eventType != "field_saved" ==> r == forms
    ensures forall s :: s in forms && Some(s) != event.sessionId ==> r[s] == forms[s]
  {
    if event.sessionId.None? || event.sessionId.value !in forms || event.eventType != "field_saved" then forms
    else match SavedPair(event.data)
      case None => forms
      case Some((fieldId, value)) =>
        forms[event.sessionId.value := ApplyFieldSaved(forms[event.sessionId.value], fieldId, value)]
  }

  /**
   * The event replay keeps a second copy of a form in step with the voice
   * pipeline's: saving the current field through the dispatcher, and
   * replaying the `field_saved` event it emits on a copy that was equal
   * before, leaves both copies equal.
   */
  lemma ReplayMirrorsSave(f: Form<AnmeldungField>, value: string)
    requires !f.IsComplete()
    ensures ApplyFieldSaved(f, f.fields[f.currentIndex].fieldId, value) == f.SaveCurrent(AppState.FieldIdOf, value)
  {
  }

  /**
   * Replaying the event on the very form the dispatcher already saved into
   * changes nothing more, provided field ids are distinct: the form has
   * moved past the saved field, so it does not advance a second time.
   */
  lemma ReplayAfterSaveIdempotent(f: Form<AnmeldungField>, value: string)
    requires !f.IsComplete() && DistinctIds(f.fields, AppState.FieldIdOf)
    ensures var g := f.SaveCurrent(AppState.FieldIdOf, value);
      ApplyFieldSaved(g, f.fields[f.currentIndex].fieldId, value) == g
  {
    var g := f.SaveCurrent(AppState.FieldIdOf, value);
    if g.currentIndex < |g.fields| {
      assert AppState.FieldIdOf(f.fields[f.currentIndex]) != AppState.FieldIdOf(f.fields[g.currentIndex]);
    }
    assert g.WithValue(f.fields[f.currentIndex].fieldId, value) == g;
  }

  /** Without distinct ids the replay can skip a field: a repeated id advances the shared form twice. */
  lemma ReplayCanSkipWithRepeatedId(field: AnmeldungField, value: string)
    ensures var f := Start([field, field, field]);
      var g := f.SaveCurrent(AppState.FieldIdOf, value);
      ApplyFieldSaved(g, field.fieldId, value).currentIndex == 2
  {
  }

  class SessionStore {
    var sessions: map<string, AppState.FormState>

    /** Distinct sessions hold distinct form states. */
    predicate Valid()
      reads this
    {
      forall a, b :: a in sessions && b in sessions && a != b ==> sessions[a] != sessions[b]
    }

    /** The forms of all sessions, as values. */
    function Forms(): map<string, Form<AnmeldungField>>
      reads this, sessions.Values
    {
      map s | s in sessions :: sessions[s].Model()
    }

    constructor ()
      ensures sessions == map[] && Valid()
    {
      sessions := map[];
    }

    /** `sync_form_state_from_events`: replays one event on the session it names. */
    method SyncFormStateFromEvents(event: FormEvent)
      requires Valid() && WellTypedSaved(event.data)
      modifies sessions.Values
      ensures Forms() == Sync(old(Forms()), event)
    {
      if event.sessionId.None? || event.sessionId.value !in sessions {
        return;
      }
      var formState := sessions[event.sessionId.value];
      if event.eventType == "field_saved" {
        var pair := SavedPair(event.data);
        if pair.Some? {
          var (fieldId, value) := pair.value;
          formState.RecordValue(fieldId, value);
          var current := formState.CurrentField();
          if current.Some? && current.value.fieldId == fieldId {
            var _ := formState.Advance();
          }
        }
      }
    }

    /** `get_or_create_session`: a fresh catalogue form under a new id, otherwise the existing one. */
    method GetOrCreateSession(sessionId: string) returns (formState: AppState.FormState)
      requires Valid()
      modifies this
      ensures Valid()
      ensures sessionId in old(sessions) ==> sessions == old(sessions) && formState == sessions[sessionId]
      ensures sessionId !in old(sessions) ==>
        fresh(formState) && sessions == old(sessions)[sessionId := formState]
        && formState.Model() == Start(Fields.ANMELDUNG_FORM_FIELDS)
      ensures forall s :: s in old(sessions) ==> s in sessions && sessions[s] == old(sessions)[s]
    {
      if sessionId !in sessions {
        var created := new AppState.FormState();
        sessions := sessions[sessionId := created];
      }
      formState := sessions[sessionId];
    }

    /** `delete_session`: 404 for an unknown id, otherwise exactly that session is removed. */
    method DeleteSession(sessionId: string) returns (reply: Reply<string>)
      requires Valid()
      modifies this
      ensures Valid()
      ensures sessionId !in old(sessions) ==> reply == HttpError(404, "Session not found") && sessions == old(sessions)
      ensures sessionId in old(sessions) ==>
        reply == Ok("Session deleted successfully") && sessions == old(sessions) - {sessionId}
    {
      if sessionId !in sessions {
        return HttpError(404, "Session not found");
      }
      sessions := sessions - {sessionId};
      return Ok("Session deleted successfully");
    }

    /**
     * `update_field`, over the catalogue's id lookup `byId`: an unknown
     * session or field is a 404; a value the field accepts is recorded
     * without moving the form and announced with a `field_updated` event; a
     * refused value changes nothing.
     */
    method UpdateField(byId: map<string, AnmeldungField>, sessionId: string, fieldId: string, value: string, log: EventLog)
      returns (reply: Reply<FieldUpdate>)
      requires Valid()
      requires forall id :: id in byId ==> Dispatchable(byId[id])
      modifies sessions.Values, log
      ensures sessionId !in sessions ==>
        reply == HttpError(404, "Session not found") && Forms() == old(Forms()) && log.entries == old(log.entries)
      ensures sessionId in sessions && fieldId !in byId ==>
        reply == HttpError(404, "Field " + fieldId + " not found") && Forms() == old(Forms())
        && log.entries == old(log.entries)
      ensures sessionId in sessions && fieldId in byId ==>
        var r := ValidateField(byId[fieldId], value);
        && reply == Ok(if r.isValid then FieldUpdate(true, true, "Field updated successfully") else FieldUpdate(false, false, r.message))
        && Forms() == (if r.isValid then old(Forms())[sessionId := old(Forms())[sessionId].WithValue(fieldId, value)] else old(Forms()))
        && log.entries == old(log.entries) + (if r.isValid then [FieldUpdated(sessionId, fieldId, value, Forms()[sessionId].Progress())] else [])
    {
      if sessionId !in sessions {
        return HttpError(404, "Session not found");
      }
      if fieldId !in byId {
        return HttpError(404, "Field " + fieldId + " not found");
      }
      var field := byId[fieldId];
      var r := ValidateField(field, value);
      if r.isValid {
        RecordAccepted(sessionId, fieldId, value);
        var progress := sessions[sessionId].ProgressPercent();
        Announce(FieldUpdated(sessionId, fieldId, value, progress), log);
        return Ok(FieldUpdate(true, true, "Field updated successfully"));
      } else {
        return Ok(FieldUpdate(false, false, r.message));
      }
    }

    /** The accepted branch of `update_field`: the value is recorded without moving the form. */
    method RecordAccepted(sessionId: string, fieldId: string, value: string)
      requires Valid() && sessionId in sessions
      modifies sessions[sessionId]
      ensures Forms() == old(Forms())[sessionId := old(Forms())[sessionId].WithValue(fieldId, value)]
    {
      var formState := sessions[sessionId];
      formState.RecordValue(fieldId, value);
      assert forall s :: s in sessions && s != sessionId ==> sessions[s] != formState;
    }

    /** Emitting an event leaves every session's form as it was. */
    method Announce(event: FormEvent, log: EventLog)
      modifies log
      ensures log.entries == old(log.entries) + [event]
      ensures Forms() == old(Forms())
    {
      log.Emit(event);
    }
  }

  /** The `field_updated` event: the re-recorded id and value, and the progress after it. */
  function FieldUpdated(sessionId: string, fieldId: string, value: string, progress: real): (e: FormEvent)
    ensures e.eventType == "field_updated" && e.sessionId == Some(sessionId)
    ensures e.data.Keys == {"field_id", "value", "progress_percent"}
    ensures e.data["field_id"] == JStr(fieldId) && e.data["value"] == JStr(value)
    ensures e.data["progress_percent"] == JNum(progress)
  {
    FormEvent("field_updated", map[
      "field_id" := JStr(fieldId),
      "value" := JStr(value),
      "progress_percent" := JNum(progress)
    ], Some(sessionId))
  }

  /** The server's lookup, the core catalogue's `FIELD_BY_ID`, can be passed to `UpdateField`. */
  lemma CatalogueLookupDispatchable()
    ensures forall id :: id in Fields.FIELD_BY_ID ==> Dispatchable(Fields.FIELD_BY_ID[id])
  {
    CatalogueLookups();
    CatalogueDispatchable();
  }

  /** The dispatcher's `field_saved` events are well typed for the replay. */
  lemma FieldSavedWellTyped(field: AnmeldungField, value: string, progress: real, sid: string)
    ensures WellTypedSaved(Handlers.FieldSaved(field, value, progress, sid).data)
    ensures field.fieldId != [] ==>
      SavedPair(Handlers.FieldSaved(field, value, progress, sid).data) == Some((field.fieldId, value))
  {
  }
}
