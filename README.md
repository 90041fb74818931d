# Anmeldung voice assistant: the form logic, modelled and proved in Dafny

The Anmeldung assistant fills in the German residence-registration form
(Anmeldung) by voice. A live language model asks for one field at a time and
calls the application's tools: get the next field, validate a value, save a
value, generate the PDF. This project models the part of the application that
sits under the audio, asyncio and socket layers:

- the form-progression state (`FormState`) in both of its copies;
- the value validators and the `validate_field` gate around them;
- the field catalogue with its two lookup maps, in both of its copies;
- the two tool-call dispatchers;
- the transform of answers into PDF field values;
- the voice-activity detector's state machine;
- the server's session map and its event-replay reducer;
- the system-prompt builder;
- the playground script's profile updater and its tool handler.

Code that changes state in place is modelled as classes whose methods carry
`modifies` clauses. Each method is proved against a pure function on values:

- both `FormState` classes against `FormModel.Form`;
- the dispatch loops against folds over the batch (`Handlers.RunCalls`,
  `LegacyTools.RunCalls`, `Playground.RunCalls`);
- the detector against `Vad.Step`;
- the session store against `Server.Sync`.

The lemmas then state the source's promises about those functions.

Outside effects are modelled as follows:

- UI events are appended to an `Events.EventLog`.
- A batch of tool responses is the returned `BatchOutcome`: sent once, nothing
  sent, or an exception that escaped the loop.
- The clock, the speech classifier, the PDF generator, the current session id
  and the legacy validator are parameters.
- Progress percentages are exact `real`s. Times are integer milliseconds.

Python behaviour that matters here is written out. `PyText` models
`str.strip`, `int()` and the decimal rendering of integers. `Vad.TruncDiv`
models `int()` of a quotient, `Vad.NormalizeFrame` models slicing with a
negative bound, `Vad.StartOr` models `or` on an optional time, and
`Playground.HasAttr` models `hasattr`.

Where comments, prompt text or tests disagree with the code, the model
follows the code:

- Dates are accepted only as exactly 8 digits, DDMMYYYY
  (`Validators.DateFormatExamples`). The `validate_by_type` docstring
  (core/validators.py:200) and the prompt's "DD.MM.YYYY" describe dotted
  dates, which the code rejects.
- The catalogue's own date fields `birth_date_p1` (voice_api/core/fields.py:99-109)
  and `move_in_date` (voice_api/core/fields.py:201-211) describe a 6-digit
  "DDMMYY" format, carry the config `{"format": "DDMMYY"}`, which the validator
  never reads, and give the examples "150190", "011285", "150125" and
  "010225". The 8-digit validator refuses every one of these examples
  (`Validators.DateFormatExamples` shows it for "150190").
- The `_validate_postal_code_de` docstring (core/validators.py:152) calls
  "8080" invalid; the code accepts 4-digit codes
  (`Validators.PostalCodeExamples`).
- `advance` has no upper bound, and saving does not validate.
- The legacy dispatcher's save advances even when the named field is not the
  current one (`LegacyTools.SaveSkipsCurrent`).
- `update_previous_field` has no handler and gets the "Unhandled tool"
  answer (`Handlers.UnknownToolIgnored`).
- The `navigate_to_field` branch calls a method the form state lacks. The
  `AttributeError` escapes the loop, and no response is sent
  (`Handlers.RaisedIffNavigate`).
- The event replay advances when the form's current field has the saved id.
  With repeated ids, a save followed by its replay on the same form skips a
  field (`Server.ReplayCanSkipWithRepeatedId`). With the catalogue's distinct
  ids, the replay after a save changes nothing
  (`Server.ReplayAfterSaveIdempotent`).
- The playground's `hasattr` also finds the profile's two methods. An
  `update_user_info` argument named `to_serializable` or `update_from_args`
  is stored as an attribute and shadows the method. The next call of that
  method raises `TypeError` (`Playground.ShadowedMethodRaises`,
  `Playground.NeverRaisesWithoutMethodNames`).

## Model

| member | source | states |
|---|---|---|
| PyText.LStrip | voice_api/core/validators.py:83 | the result is a suffix of the input, has no leading whitespace, and everything dropped is whitespace |
| PyText.RStrip | voice_api/core/validators.py:83 | the result is a prefix of the input, has no trailing whitespace, and everything dropped is whitespace |
| PyText.Strip | voice_api/core/validators.py:83 | `str.strip()`: no longer than the input, with neither leading nor trailing whitespace |
| PyText.StripIsSlice | voice_api/core/validators.py:83 | stripping removes whitespace only at both ends and keeps the middle unchanged |
| PyText.BlankIffAllSpace | voice_api/core/validators.py:39 | `not value.strip()` holds exactly when every character is whitespace |
| PyText.Decimal | voice_api/core/validators.py:128-131 | the decimal rendering of a natural number is a non-empty string of digits |
| PyText.DecimalValue | voice_api/core/validators.py:128-131 | reading back the rendering gives the number |
| PyText.IntToString | voice_api/core/validators.py:128-131 | `str(n)` is non-empty and has no whitespace at either end, so stripping keeps it |
| PyText.ParseIntToString | voice_api/core/validators.py:123 | `int(str(n)) == n` for every integer: parsing inverts rendering |
| PyText.ParseNegativeDigits | voice_api/core/validators.py:123 | `int()` of a minus sign followed by digits is the negated decimal value of the digits |
| PyText.ParseDigits | voice_api/core/validators.py:88-90 | `int()` of a digit string is the digits' decimal value |
| PyText.ParseInt | voice_api/core/validators.py:119-125 | a string `int()` accepts is never blank, and a negative result comes from a text whose stripped form starts with `-` |
| PyText.IsSpace | voice_api/core/validators.py:83 | whitespace for `str.strip`/`str.isspace` never includes a digit, a sign or `_`, so stripping never removes part of a number |
| Fields.NewFieldValidator | voice_api/core/fields.py:27-42 | `FieldValidator.__post_init__`: a missing config becomes the empty map, a given one is kept |
| Fields.IndexByKeys | voice_api/core/fields.py:293-300 | a dict comprehension keyed by a field attribute has exactly the keys of the list |
| Fields.IndexByDistinct | voice_api/core/fields.py:293-300 | with distinct keys, the comprehension maps each key back to its own field and has one entry per field |
| Fields.IndexByCrossConsistent | voice_api/core/fields.py:293-300 | with distinct ids and pdf ids, the two lookups agree: each maps to a field whose other key finds the same field |
| Fields.CatalogueOrder | voice_api/core/fields.py:268-284 | the catalogue is the 13 fields from `family_name_p1` to `housing_type`, in order, all required |
| Fields.CatalogueKeysDistinct | voice_api/core/fields.py:268-284 | field ids are pairwise distinct and pdf field ids are pairwise distinct |
| Fields.GenderWellConfigured | voice_api/core/fields.py:123-136 | the gender field is an integer choice with integer bounds in its config and a non-empty label map whose keys lie within them |
| Fields.FamilyStatusWellConfigured | voice_api/core/fields.py:138-162 | the family-status field is an integer choice with integer bounds and a non-empty label map within them |
| Fields.ReligionWellConfigured | voice_api/core/fields.py:176-195 | the religion field is an integer choice with integer bounds and a non-empty label map within them |
| Fields.HousingTypeWellConfigured | voice_api/core/fields.py:245-262 | the housing-type field is an integer choice with integer bounds and a non-empty label map within them |
| Fields.TextFieldsWellConfigured | voice_api/core/fields.py:75-243 | the nine other fields carry one of the four known tags and no label map |
| Fields.CatalogueValidators | voice_api/core/fields.py:75-262 | every catalogue field has one of the four tags; it has a label map exactly when it is an integer choice, whose bounds are integers enclosing every label key |
| Fields.CatalogueLookups | voice_api/core/fields.py:293-300 | `FIELD_BY_ID` and `FIELD_BY_PDF_ID` each have one entry per field, map each key back to its field, and agree with each other |
| AnmeldungFields.SameFieldsAsCore | voice_api/anmeldung_fields.py:254-270 | the second catalogue has 13 fields in the core order with the same ids, pdf ids, labels, tags, required flags and label maps; only the two date fields differ |
| AnmeldungFields.LookupsMatchCore | voice_api/anmeldung_fields.py:273-280 | the copy's two lookups have the core's keys, and `FIELD_BY_ID` agrees with the core's on every field but the two dates |
| AnmeldungFields.LookupsCrossConsistent | voice_api/anmeldung_fields.py:273-280 | the copy's two lookups agree with each other |
| AnmeldungFields.PdfLookupMatchesCore | voice_api/anmeldung_fields.py:278-280 | looked up by pdf id, both copies give fields with the same id and validator tag |
| Validators.ValidateNonEmpty | voice_api/core/validators.py:29-41 | valid with message "" exactly when the stripped value is non-empty; otherwise "This field cannot be empty." |
| Validators.ValidateText | voice_api/core/validators.py:44-54 | text validation accepts exactly the non-blank values and has the same messages |
| Validators.DaysInMonth | voice_api/core/validators.py:86-96 | a month has 28 to 31 days, and exactly 29 only in February of a leap year |
| Validators.ValidateDateDe | voice_api/core/validators.py:57-96 | the message is "" exactly when valid; the empty, format and calendar failures each have their own message |
| Validators.DateDeAcceptsExactly | voice_api/core/validators.py:78-96 | a date is accepted iff the stripped value is 8 digits read as DD, MM, YYYY that form a real date with year 1..9999 |
| Validators.DateParts | voice_api/core/validators.py:86-90 | the day, month and year read from eight digits, written out again as DDMMYYYY, give back the same eight digits |
| Validators.AcceptedDateIsDate | voice_api/core/validators.py:86-94 | an accepted value names a valid calendar date |
| Validators.DateIsAccepted | voice_api/core/validators.py:78-94 | every 8-digit rendering of a valid date is accepted |
| Validators.FormatDateAccepted | voice_api/core/validators.py:78-94 | formatting a valid date as DDMMYYYY and validating it succeeds |
| Validators.LeapDayExamples | voice_api/core/validators.py:93 | 29 February is a date in 2020 and 2000 but not in 2021 or 1900, and year 0 is no date |
| Validators.DateExample | voice_api/core/validators.py:86-96 | 8 digits formed from a day, month and year are accepted iff they name a real date, and otherwise get the invalid-date message |
| Validators.DateFormatExamples | voice_api/core/validators.py:82-84 | the dotted date "15.01.1990" and the 6-digit date "150190" are refused by the 8-digit format check |
| Validators.ValidateIntegerChoice | voice_api/core/validators.py:99-133 | a blank value gets "Value cannot be empty.", then a value `int()` refuses gets the whole-number message; the message is "" exactly when valid |
| Validators.IntegerChoiceRangeMessages | voice_api/core/validators.py:119-133 | a non-blank value that `int()` reads gets the range check's answer for the parsed number, so the range check comes after the empty and number checks |
| Validators.CheckBounds | voice_api/core/validators.py:127-133 | a parsed number passes exactly when it lies within the inclusive bounds, with no upper bound when there is no maximum; below the minimum it gets "Value N is too small (minimum M).", and only when not below, above a maximum it gets "Value N is too large (maximum M)."; the message is "" exactly when it passes |
| Validators.IntegerChoiceAcceptsExactly | voice_api/core/validators.py:119-133 | accepted iff `int()` parses the value and the number lies within the inclusive bounds; no maximum means no upper bound |
| Validators.IntegerChoiceAcceptsInRange | voice_api/core/validators.py:122-133 | the rendering of any number within the bounds is accepted |
| Validators.ValidatePostalCodeDe | voice_api/core/validators.py:136-165 | valid iff the stripped value is exactly 4 or 5 digits, with message ""; blank and malformed values get their own messages |
| Validators.PostalCodeExamples | voice_api/core/validators.py:154-165 | "80802" and "8080" are accepted; "808021" is refused |
| Validators.ValidateByType | voice_api/core/validators.py:173-225 | each known tag gives exactly its validator's result, integer choices with `min` (default 0) and `max` (default none) read from the config or `{}`; an unknown tag is `(True, "")`; the message is "" exactly when valid |
| Validators.ValidateByTypeAcceptsExactly | voice_api/core/validators.py:207-225 | for each tag, the value is accepted iff it meets that tag's acceptance rule, and the message is "" iff accepted |
| Validators.ChoiceDefaults | voice_api/core/validators.py:207-221 | with no config or an empty one, an integer choice is checked with minimum 0 and no maximum |
| Validation.ValidateField | voice_api/app/validation.py:20-54 | a blank required value is "<label> is required."; a blank optional value is valid; otherwise the type validator decides |
| Validation.CatalogueDispatchable | voice_api/app/validation.py:51-54 | every catalogue field's config has the shape its validator reads |
| Validation.RequiredValidOnlyIfAccepted | voice_api/app/validation.py:43-54 | a required field is valid only for a non-blank value its type accepts, and then always valid |
| Validation.OptionalAcceptsBlankOrAccepted | voice_api/app/validation.py:47-54 | an optional field is valid iff the value is blank or its type accepts it |
| Validation.GetEnumDisplay | voice_api/app/validation.py:57-86 | without an enum map, or for a value that is not a known integer key, the value is returned unchanged; otherwise the label |
| Validation.EnumDisplayOfIndex | voice_api/app/validation.py:82-84 | the rendering of a key in the enum map displays as that key's label |
| FormModel.ProgressPercent | voice_api/app/state.py:101-104 | `min(100, answered*100/total)`, or 100 for no fields; always within 0..100 |
| FormModel.ProgressMonotone | voice_api/app/state.py:101-104 | more answers never lower the progress |
| FormModel.Start | voice_api/app/state.py:38-41 | a fresh form has index 0, no answers, no errors, and the given fields in order |
| FormModel.CurrentFieldAbsentIffComplete | voice_api/app/state.py:50-71 | the current field is absent exactly when the form is complete, and otherwise is `fields[current_index]` |
| FormModel.AdvancedByMoves | voice_api/app/state.py:54-62 | n advances move the index by exactly n, with no cap; a complete form stays complete |
| FormModel.LastFieldThenComplete | voice_api/app/state.py:64-71 | the form is not complete on its last field and is complete after one more advance |
| FormModel.WithValueFrame | voice_api/app/state.py:81-82 | recording sets the answer, removes only that id's error, and keeps fields and index |
| FormModel.WithValueSize | voice_api/app/state.py:81 | recording adds one answer for a new id and none for an id already answered |
| FormModel.WithValueProgress | voice_api/app/state.py:94-104 | recording never lowers the progress |
| FormModel.SaveAllCompletes | voice_api/tests/unit/test_state_extended.py:340-355 | recording each field in order from the start, advancing after each, completes the form with one answer per field and progress 100, when ids are distinct |
| AppState.FormState.constructor | voice_api/app/state.py:38-41 | a fresh state holds the catalogue in order, index 0, and empty answers and errors |
| AppState.FormState.CurrentField | voice_api/app/state.py:43-52 | `fields[current_index]` below the end, otherwise absent |
| AppState.FormState.Advance | voice_api/app/state.py:54-62 | the index grows by one with no cap, the rest is unchanged, and the new current field is returned |
| AppState.FormState.IsComplete | voice_api/app/state.py:64-71 | holds iff `current_index >= len(fields)` |
| AppState.FormState.RecordValue | voice_api/app/state.py:73-82 | sets the answer, overwriting; removes only that id's error; index and fields unchanged |
| AppState.FormState.SetError | voice_api/app/state.py:84-92 | sets the error for one id, overwriting; nothing else changes |
| AppState.FormState.ProgressPercent | voice_api/app/state.py:94-104 | the progress formula on the current answers, within 0..100 |
| AppState.FormState.ToPdfFormat | voice_api/app/state.py:106-121 | returns the export transform of the answers and changes nothing |
| AppState.FillCatalogueInOrder | voice_api/tests/unit/test_state_extended.py:340-355 | filling the catalogue's 13 fields in order completes a fresh form with 13 answers and progress 100 |
| LegacyState.FormState.constructor | voice_api/state.py:15-18 | a fresh legacy state holds the given fields, index 0, and empty answers and errors |
| LegacyState.FormState.CurrentField | voice_api/state.py:20-24 | `fields[current_index]` below the end, otherwise absent |
| LegacyState.FormState.Advance | voice_api/state.py:26-29 | the index grows by one with no cap, and the new current field is returned |
| LegacyState.FormState.IsComplete | voice_api/state.py:31-33 | holds iff `current_index >= len(fields)` |
| LegacyState.FormState.RecordValue | voice_api/state.py:35-38 | stores the answer and drops only that id's error |
| LegacyState.FormState.SetError | voice_api/state.py:40-42 | overwrites one id's error and nothing else |
| LegacyState.FormState.ProgressPercent | voice_api/state.py:44-49 | clamped to 100, and 100 for an empty field list |
| Events.EventLog.Emit | voice_api/api/events.py:180-200 | emitting appends the event to the log, after the earlier ones |
| Payload.StrList | voice_api/llm/handlers.py:48 | a string list becomes a JSON list of the same strings in order |
| ToolProtocol.Arg | voice_api/llm/handlers.py:116 | `args.get(key, default)`: the argument when present, otherwise the default |
| ToolProtocol.Deliver | voice_api/llm/handlers.py:307-312 | responses are sent once when there are any, otherwise nothing is sent |
| Handlers.FieldPayload | voice_api/llm/handlers.py:32-50 | `_field_to_payload`: exactly the seven keys, carrying the field's id, label, tag, required flag and examples |
| Handlers.SessionIdOf | voice_api/llm/handlers.py:71 | the current session id when it is non-empty, otherwise "default" |
| Handlers.FieldChanged | voice_api/llm/handlers.py:92-104 | a `field_changed` event for the session with its six keys, naming the field and the current index, with a progress between 0 and 100 |
| Handlers.ValidationEvent | voice_api/llm/handlers.py:135-145 | a `validation_result` event for the session with its four keys, whose `is_valid` and `message` are the validator's verdict on that value for that field |
| Handlers.FieldSaved | voice_api/llm/handlers.py:220-229 | a `field_saved` event for the session with its three keys: the saved field's id, the value and the progress |
| Handlers.FormComplete | voice_api/llm/handlers.py:261-269 | a `form_complete` event for the session with the PDF location and a non-negative byte count |
| Handlers.GetNextStep | voice_api/llm/handlers.py:80-113 | getting the next field never changes the form |
| Handlers.ValidateStep | voice_api/llm/handlers.py:115-154 | validating never changes the field list |
| Handlers.SaveStep | voice_api/llm/handlers.py:200-241 | saving never changes the field list |
| Handlers.GenerateStep | voice_api/llm/handlers.py:243-296 | generating the PDF never changes the form |
| Handlers.Step | voice_api/llm/handlers.py:75-305 | a call raises exactly when it is `navigate_to_field`; otherwise its one response echoes the call's id and name, the field list is kept, and at most one event is emitted |
| Handlers.RunCalls | voice_api/llm/handlers.py:75-305 | the loop over a batch never changes the field list |
| Handlers.HandleToolCalls | voice_api/llm/handlers.py:53-313 | the state and the event log end as the fold over the batch; an empty batch sends nothing; a raising call sends nothing; otherwise the responses are sent once |
| Handlers.HandleNth | voice_api/llm/handlers.py:75-305 | handling call `i` after `i` calls that did not raise leaves the state and the log as the fold over the first `i + 1` calls; it answers exactly when that fold has not raised, appending one response |
| Handlers.RunCallsStep | voice_api/llm/handlers.py:75-305 | one more call of a batch that has not raised either raises, keeping state and log, or adds its response and events to the fold |
| Handlers.HandleCall | voice_api/llm/handlers.py:75-305 | one call changes the state, the log and the response as `Step` says; a raising call changes nothing |
| Handlers.HandleGetNext | voice_api/llm/handlers.py:80-113 | the get branch answers and logs as `GetNextStep` says |
| Handlers.HandleValidate | voice_api/llm/handlers.py:115-154 | the validate branch changes the state and the log as `ValidateStep` says |
| Handlers.RecordValidation | voice_api/llm/handlers.py:130-146 | a rejected value stores its message as the field's error, an accepted one changes nothing, and one `validation_result` event is logged either way |
| Handlers.HandleSave | voice_api/llm/handlers.py:200-241 | the save branch records, advances and logs as `SaveStep` says |
| Handlers.HandleGenerate | voice_api/llm/handlers.py:243-296 | the generate branch answers and logs as `GenerateStep` says |
| Handlers.RaisedStays | voice_api/llm/handlers.py:156-158 | once a call has raised, the rest of the batch changes nothing |
| Handlers.RaisedIffNavigate | voice_api/llm/handlers.py:156-158 | a batch raises exactly when it holds a `navigate_to_field` call |
| Handlers.OneResponsePerCall | voice_api/llm/handlers.py:75-312 | without navigation, there is exactly one response per call, in order, each echoing the call's id and name, and at most one event per call |
| Handlers.EmptyBatch | voice_api/llm/handlers.py:66-67 | an empty batch yields no response, no event and no state change |
| Handlers.GetNextPure | voice_api/llm/handlers.py:80-113 | the form is unchanged; `done` is true iff complete; otherwise one `field_changed` event and the field's payload |
| Handlers.ValidateOnlySetsError | voice_api/llm/handlers.py:115-154 | the current field is validated, whatever `field_id` is passed; answers and index are unchanged; a failure sets only that field's error; one `validation_result` event |
| Handlers.SaveRecordsAndAdvances | voice_api/llm/handlers.py:200-241 | with a current field, the value is recorded unvalidated and the index moves by one; the `field_saved` event and the response carry the progress after the move; with no current field nothing changes |
| Handlers.GenerateNeverMutates | voice_api/llm/handlers.py:243-296 | the form is unchanged; a generator failure becomes an `ok: false` answer with no event; success emits one `form_complete` |
| Handlers.UnknownToolIgnored | voice_api/llm/handlers.py:298-305 | an unknown tool gets "Unhandled tool <name>", with no state change and no event |
| Handlers.SavesFillInOrder | voice_api/llm/handlers.py:200-241 | a batch of saves records the values in field order, one field per save |
| Handlers.ValueArgs | voice_api/llm/handlers.py:201 | one `value` argument per call, in call order, `""` where the argument is missing |
| Handlers.StepSave | voice_api/llm/handlers.py:200-241 | a `save_form_field` call is handled by the save branch |
| Handlers.AnswersStayInFields | voice_api/llm/handlers.py:200-241 | answers are only stored under ids of the form's own fields |
| Handlers.StepAnswerKeys | voice_api/llm/handlers.py:213 | a single call stores an answer only under the id of one of the form's fields |
| LegacyTools.FieldPayload | voice_api/tools.py:16-26 | the seven keys; absent examples and constraints are sent empty |
| LegacyTools.FirstWithId | voice_api/tools.py:165-171 | the first field in list order with the id, or absent iff no field has it |
| LegacyTools.FindSpec | voice_api/tools.py:165-171 | a found field is in the list and carries the requested non-empty id; nothing is found iff the id is missing, empty, or no field has it |
| LegacyTools.FindField | voice_api/tools.py:165-171 | `_find_field`: no id or an empty id finds nothing; otherwise the first field with that id |
| LegacyTools.FindsEachField | voice_api/tools.py:165-171 | with distinct ids, every field is found by its own id |
| LegacyTools.Step | voice_api/tools.py:78-158 | one call keeps the field list and answers with the call's id and name |
| LegacyTools.RunCalls | voice_api/tools.py:76-158 | one response per call, in order, and the field list is kept |
| LegacyTools.HandleToolCalls | voice_api/tools.py:71-162 | the state ends as the fold over the batch; the responses are sent once, only if there are any |
| LegacyTools.HandleCall | voice_api/tools.py:78-158 | one call changes the state and answers as `Step` says |
| LegacyTools.GetNextPure | voice_api/tools.py:83-100 | changes nothing; `done` is true iff the form is complete |
| LegacyTools.ValidateByName | voice_api/tools.py:102-124 | an unknown or missing id changes nothing and answers "Unknown field."; a refused value sets that id's error; an accepted value changes nothing |
| LegacyTools.SaveSkipsCurrent | voice_api/tools.py:138-150 | saving a known field that is not the current one records it and advances past the unanswered current field |
| LegacyTools.SaveUnknownNoChange | voice_api/tools.py:126-137 | saving with an unknown, missing or empty id changes nothing and answers `ok: false` |
| PdfExport.ExportValue | voice_api/pdf_generator.py:61-70 | an integer-choice value that `int()` parses becomes that integer; otherwise, and for every other tag, the string is kept |
| PdfExport.ExportChoiceIndex | voice_api/pdf_generator.py:62-64 | the rendering of any integer exports as that integer |
| PdfExport.TransformAnswersToPdfFormat | voice_api/pdf_generator.py:22-72 | the loop's result is the export map over the catalogue, with one entry per answered catalogue id |
| PdfExport.Transform | voice_api/pdf_generator.py:50-72 | for any consistent pair of lookups, the loop builds the export map, with one entry per answered known id |
| PdfExport.ExportSize | voice_api/pdf_generator.py:50-72 | the output has one entry per answered catalogue id, because pdf ids are distinct |
| PdfExport.ExportStep | voice_api/pdf_generator.py:52-70 | one more answer adds a fresh entry under its field's pdf id when the id is known, and nothing otherwise |
| PdfExport.ExportKnown | voice_api/pdf_generator.py:59-70 | a known id's pdf id was not yet filled, and the answer adds exactly its converted value there |
| PdfExport.ExportUnknown | voice_api/pdf_generator.py:54-57 | an unknown id leaves the export unchanged |
| PdfExport.UnknownAnswersDropped | voice_api/pdf_generator.py:52-57 | an answer whose id is not in the catalogue leaves the output as it is without that answer |
| PdfExport.UnknownDropped | voice_api/pdf_generator.py:52-57 | for any lookup, an answer with an unknown id does not change the export |
| PdfExport.PdfFormat | voice_api/pdf_generator.py:50-72 | each answered catalogue field is stored under its pdf id with the converted value, only answered catalogue fields are filled, and there is one entry per answered catalogue id |
| PdfExport.ExportedUnder | voice_api/pdf_generator.py:59-70 | for any consistent lookup, each kept answer is stored under its pdf id |
| PdfExport.EmptyAnswers | voice_api/pdf_generator.py:50-72 | no answers give an empty export |
| PdfExport.CoreCatalogueSameExport | voice_api/pdf_generator.py:15-72 | exporting through the second catalogue's lookups gives the same map as through the core ones |
| Vad.ConfigError | voice_api/vad.py:56-64 | with the backend, an out-of-range aggressiveness, rate or frame duration is refused with its own message, checked in that order (a later check speaks only when the earlier ones pass); without it nothing is checked |
| Vad.TruncDiv | voice_api/vad.py:70 | `int(x / y)`: the quotient truncated toward zero |
| Vad.FrameSize | voice_api/vad.py:66-70 | the frame size is even (two bytes per sample), and half of it is `rate * duration / 1000` truncated toward zero |
| Vad.DefaultFrameSize | voice_api/vad.py:66-70 | the default configuration gives 960 bytes |
| Vad.AcceptedFrameSize | voice_api/vad.py:56-70 | every accepted configuration has a positive, even frame size of exactly `rate * duration / 1000` samples |
| Vad.NormalizeFrame | voice_api/vad.py:128-138 | the frame has exactly the configured size: short frames are zero-padded, long ones cut to their prefix, exact ones kept; a negative size slices from the end |
| Vad.Push | voice_api/vad.py:100-101 | `deque(maxlen=n).append`: the window keeps the last n entries |
| Vad.Step | voice_api/vad.py:143-179 | one frame never jumps from SILENCE to SPEECH_ENDED, never leaves SPEECH_ENDED, returns from SPEAKING to SILENCE only as a fresh detector, keeps the speech start time, and otherwise always pushes the verdict into the speech window |
| Vad.InitialInv | voice_api/vad.py:98-105 | the fresh detector meets the invariant: bounded windows, and times present exactly outside SILENCE |
| Vad.StepPreservesInv | voice_api/vad.py:116-179 | each frame keeps that invariant |
| Vad.StartsSpeaking | voice_api/vad.py:144-156 | from SILENCE, speaking starts exactly when the last `speech_start_frames` verdicts are all speech; both times become now and the silence window is emptied |
| Vad.SilentWindowIsHistory | voice_api/vad.py:100-144 | while silent, the speech window is the last `speech_start_frames` verdicts, whatever times the frames arrive at |
| Vad.SilenceWindowOnlyWhileSpeaking | voice_api/vad.py:145-146 | the silence window grows only while SPEAKING |
| Vad.MaxDurationEnds | voice_api/vad.py:162-167 | while SPEAKING, running past the maximum ends the speech before the silence rule is checked |
| Vad.SilenceEnds | voice_api/vad.py:170-177 | a full silent window ends a speech that lasted at least the minimum; a shorter speech resets the detector |
| Vad.SpeechKeepsSpeaking | voice_api/vad.py:158-170 | within the maximum, a speech frame keeps SPEAKING and updates the last speech time |
| Vad.EndedAbsorbing | voice_api/vad.py:148-179 | SPEECH_ENDED is kept by any number of frames at any times |
| Vad.ShouldSend | voice_api/vad.py:215-222 | audio is sent iff the state is SPEAKING or SPEECH_ENDED |
| Vad.SpeechComplete | voice_api/vad.py:224-226 | a complete speech is also one whose audio is sent |
| Vad.VoiceActivityDetector.constructor | voice_api/vad.py:83-105 | the given config or the default; SILENCE with empty windows and no times |
| Vad.VoiceActivityDetector.Reset | voice_api/vad.py:107-114 | back to SILENCE with both windows cleared and both times absent |
| Vad.VoiceActivityDetector.ProcessFrame | voice_api/vad.py:116-179 | the state after a frame is `Step` on the classifier's verdict for the normalised frame, and the new phase is returned |
| Vad.VoiceActivityDetector.FitFrame | voice_api/vad.py:128-138 | the in-place padding or truncation gives the normalised frame |
| Vad.VoiceActivityDetector.Update | voice_api/vad.py:143-179 | the window updates and transitions match `Step` |
| Vad.VoiceActivityDetector.ShouldSendAudio | voice_api/vad.py:215-222 | holds iff the state is SPEAKING or SPEECH_ENDED |
| Vad.VoiceActivityDetector.IsSpeechComplete | voice_api/vad.py:224-226 | holds iff the state is SPEECH_ENDED |
| Server.ApplyFieldSaved | voice_api/api/server.py:54-61 | the value is recorded and the form advances by one exactly when the current field has the saved id |
| Server.SavedPair | voice_api/api/server.py:51-54 | an event contributes a pair exactly when `field_id` is truthy and `value` is present and not None |
| Server.Sync | voice_api/api/server.py:35-72 | session keys are kept; unknown sessions, missing session ids and other event types change nothing; other sessions are untouched |
| Server.ReplayMirrorsSave | voice_api/api/server.py:54-61 | replaying the dispatcher's `field_saved` on an equal copy of the form gives the same form |
| Server.ReplayAfterSaveIdempotent | voice_api/api/server.py:58-61 | with distinct ids, replaying on the form the dispatcher saved into changes nothing |
| Server.ReplayCanSkipWithRepeatedId | voice_api/api/server.py:58-61 | with a repeated id, the replay on the shared form advances a second time |
| Server.FieldUpdated | voice_api/api/server.py:249-258 | a `field_updated` event for the session with its three keys: the field id, the value and the progress |
| Server.SessionStore.constructor | voice_api/api/server.py:32 | the session map starts empty |
| Server.SessionStore.SyncFormStateFromEvents | voice_api/api/server.py:35-72 | the sessions' forms change as `Sync` says |
| Server.SessionStore.GetOrCreateSession | voice_api/api/server.py:460-464 | a fresh catalogue form is inserted only for an absent id; an existing session is returned unchanged |
| Server.SessionStore.DeleteSession | voice_api/api/server.py:353-359 | 404 for an unknown id; otherwise exactly that key is removed |
| Server.SessionStore.UpdateField | voice_api/api/server.py:233-271 | an unknown session or field is a 404 with no change; an accepted value is recorded without advancing and announced by a `field_updated` event; a refused value changes nothing |
| Server.CatalogueLookupDispatchable | voice_api/api/server.py:236-243 | every field the server can look up has a config the validator can use |
| Server.FieldSavedWellTyped | voice_api/api/server.py:51-54 | the dispatcher's `field_saved` events are ones the replay reads back as the saved id and value |
| Prompts.FieldLines | voice_api/llm/prompts.py:46 | one "- label: description" line per field, in order |
| Prompts.AssembledParts | voice_api/llm/prompts.py:49-69 | the prompt starts with the base text and contains the workflow text, the field lines and the rules |
| Prompts.BuildPrompt | voice_api/llm/prompts.py:46-69 | the prompt begins with `SYSTEM_PROMPT_BASE`, contains the workflow phrases and the rules phrases, and contains every field's line and every pair of consecutive field lines, in field order |
| Prompts.BuildSystemPrompt | voice_api/llm/prompts.py:30-69 | the system prompt begins with the base instruction and names every catalogue field by its "- label: description" line |
| Prompts.LinesInOrder | voice_api/llm/prompts.py:46-47 | in the joined text, each line is followed by a newline and the next line |
| Prompts.LineInJoin | voice_api/llm/prompts.py:47 | every line occurs in the joined text |
| Prompts.LinesInAssembly | voice_api/llm/prompts.py:46-62 | every field line, and every line followed by the next one, occurs in the assembled prompt |
| Prompts.WorkflowPhrases | voice_api/llm/prompts.py:51-60 | a prompt assembled with the workflow section contains "MANDATORY WORKFLOW", "CURRENT field" and "Do NOT pass field_id" |
| Prompts.RulesPhrases | voice_api/llm/prompts.py:63-68 | a prompt assembled with the rules section contains "Validation rules", "DD.MM.YYYY" and "generate_anmeldung_pdf" |
| Playground.EmptyProfile | playground/gemin_live_api_v2.py:122-130 | a new profile has exactly the six fields, all None |
| Playground.HasAttr | playground/gemin_live_api_v2.py:135 | `hasattr` finds the class's methods on every profile and every field of a profile that still has its six fields; what it does not find is not in the instance dictionary |
| Playground.Apply | playground/gemin_live_api_v2.py:132-136 | an update never removes an attribute and can add only a method's name |
| Playground.LastSet | playground/gemin_live_api_v2.py:132-136 | the last non-None value given for a key, or absent iff every value given for it is None |
| Playground.ApplyByKey | playground/gemin_live_api_v2.py:132-136 | after an update, a key holds the last non-None value given for it if `hasattr` finds it, and otherwise keeps its old value; other keys are ignored |
| Playground.NoneNeverErases | playground/gemin_live_api_v2.py:135 | a None argument never erases stored data |
| Playground.KeysStay | playground/gemin_live_api_v2.py:132-141 | arguments that name no method keep the profile's set of attributes |
| Playground.MethodNameStored | playground/gemin_live_api_v2.py:135-136 | an argument named after a method is stored as an attribute |
| Playground.UserProfile.constructor | playground/gemin_live_api_v2.py:122-130 | the six fields, all None |
| Playground.UserProfile.UpdateFromArgs | playground/gemin_live_api_v2.py:132-136 | the loop over the arguments yields the update described by `Apply` |
| Playground.UserProfile.ToSerializable | playground/gemin_live_api_v2.py:139-141 | a copy of the instance dictionary: the same keys, each with the same value |
| Playground.StepCall | playground/gemin_live_api_v2.py:266-284 | one call keeps every attribute; a call that raises is an `update_user_info` call and answers nothing; otherwise only `update_user_info` is answered, with "User info stored", and neither method is shadowed after it |
| Playground.RunCalls | playground/gemin_live_api_v2.py:260-287 | the batch keeps every attribute, adds only method names, and answers each call at most once |
| Playground.RaisedStays | playground/gemin_live_api_v2.py:270-284 | once a call has raised, the rest of the batch changes nothing |
| Playground.HandleToolCalls | playground/gemin_live_api_v2.py:260-287 | the profile ends as the fold over the batch; an empty batch sends nothing; a raising call sends nothing; otherwise the responses are sent once, only if there are any |
| Playground.OnlyUserInfoAnswered | playground/gemin_live_api_v2.py:266-287 | one "User info stored" response per `update_user_info` call, in order; no other name is answered; a batch without such calls sends nothing |
| Playground.NeverRaisesWithoutMethodNames | playground/gemin_live_api_v2.py:270-284 | with no method-named argument, a batch never raises and the profile keeps its six attributes |
| Playground.ShadowedMethodRaises | playground/gemin_live_api_v2.py:272-275 | an `update_user_info` argument named `to_serializable` makes the batch raise |

## Left out

- Audio, sockets, asyncio task groups, threads and the Gemini Live session are
  not modelled. Sending a batch of tool responses is the returned
  `BatchOutcome`.
- The subscriber queues and cross-thread dispatch of the event emitter are not
  modelled. Emitting appends to `Events.EventLog`, and the `session_id`
  default is left to the callers, who always pass one.
- Logging is not modelled.
- The PDF library, the template and the file write are not modelled.
  `generate_anmeldung_pdf` is a parameter returning the bytes written or the
  error. The `%Y%m%d_%H%M%S` timestamp is a parameter too, given once per
  batch: the source reads `datetime.now()` at each `generate_anmeldung_pdf`
  call, while the model gives two generate calls in one batch the same
  timestamp and so the same output path.
- `voice_runner.get_current_session_id()` is a parameter, because it reads
  another thread's state.
- The speech classifier and the RMS energy detector of the detector are not
  modelled. The verdict comes from a `classify` parameter, and whether the
  backend is installed is the `hasBackend` parameter. `time.time()` is the
  `now` parameter, in integer milliseconds, and the durations are integer
  milliseconds instead of float seconds.
- The legacy validator module `voice_api/validation.py` is not part of this
  model. It calls a module that is not shown and reads attributes the legacy
  field type lacks. The legacy dispatcher takes its validator as the `check`
  parameter.
- The legacy catalogue in `voice_api/schema.py` is static data and is not
  modelled. `LegacyState.FormState` takes its field list as a constructor
  parameter.
- The function-declaration builders for the model's tools and the
  configuration and re-export modules are not modelled.
- The server's HTTP and WebSocket routes, CORS and `download_pdf` are not
  modelled; only the state logic of the listed endpoints is.
- `PyText.IsSpace` covers ASCII and Latin-1 whitespace only. Other Unicode
  whitespace that `str.strip` removes is not modelled.
- `PyText.ParseInt` reads an optional sign and ASCII digits, with
  underscores between digits. Unicode digits are not modelled.
- Regular-expression `\d` is modelled as ASCII digits.
- The JSON values the model sends are a small `Payload.Json` datatype.
  Floats are exact `real`s.
- Server.SessionStore.SyncFormStateFromEvents: requires the event's
  `field_id` and `value`, when present and used, to be strings. The
  dispatcher only emits such events (`Server.FieldSavedWellTyped`). Python
  would also store a non-string value.
- Server.Sync: requires the same well-typed event data.
- Handlers.HandleToolCalls: requires every field of the form to have a config
  of the shape its validator reads. Integer-choice bounds other than `int`
  (or `None` for the maximum) are not modelled: float and bool bounds would
  compare normally, and other values raise `TypeError` in the comparison.
  The catalogue meets the requirement (`Validation.CatalogueDispatchable`).
- Validators.ValidateByType: carries the same requirement on the
  integer-choice bounds, with the same consequence: float and bool bounds,
  which compare, and other non-numeric bounds, which raise `TypeError`, are
  not modelled.
- ToolProtocol.FunctionCall: the argument values are assumed to be strings,
  as the tool declarations type them. A JSON null or number sent as
  `value` or `field_id` is not modelled: a null `value` would take the
  blank path and be saved as `None`, and a number would raise
  `AttributeError` at `value.strip()` out of the loop, so no response would
  be sent.
- Server.SessionStore.UpdateField: requires the same of its lookup
  (`Server.CatalogueLookupDispatchable`).
- Playground.HasAttr: only the two methods the class defines are counted as
  attributes beyond the instance dictionary. Dunder attributes that `hasattr`
  also finds are not modelled.
- The `navigate_to_field` branch is modelled only as raising. The events and
  state changes of earlier calls in the same batch persist.
