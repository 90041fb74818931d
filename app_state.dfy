/**
 * The guided-form state of the voice application: the ordered Anmeldung
 * fields, the index of the field being collected, the answers and the
 * validation errors, updated in place by the tool-call dispatcher, the
 * server and the event sync.
 */
module AppState {
  import opened Wrappers
  import opened FormModel
  import opened Fields
  import PdfExport

  function FieldIdOf(f: AnmeldungField): string {
    f.fieldId
  }

  class FormState {
    var fields: seq<AnmeldungField>
    var currentIndex: nat
    var answers: map<string, string>
    var validationErrors: map<string, string>

    /** The state as a value, for specifications. */
    function Model(): Form<AnmeldungField>
      reads this
    {
      Form(fields, currentIndex, answers, validationErrors)
    }

    /** A fresh state: the whole catalogue in order, index 0, no answers, no errors. */
    constructor ()
      ensures Model() == Start(Fields.ANMELDUNG_FORM_FIELDS)
    {
      fields := Fields.ANMELDUNG_FORM_FIELDS;
      currentIndex := 0;
      answers := map[];
      validationErrors := map[];
    }

    /** `current_field`: the field at the index while it is below the field count. */
    function CurrentField(): (r: Option<AnmeldungField>)
      reads this
      ensures r.Some? <==> currentIndex < |fields|
      ensures r.Some? ==> r.value == fields[currentIndex]
    {
      if currentIndex < |fields| then Some(fields[currentIndex]) else None
    }

    /** `advance`: the index grows by one, with no upper bound; the new current field is returned. */
    method Advance() returns (next: Option<AnmeldungField>)
      modifies this
      ensures Model() == old(Model()).Advanced()
      ensures next == CurrentField()
    {
      currentIndex := currentIndex + 1;
      next := CurrentField();
    }

    function IsComplete(): (b: bool)
      reads this
      ensures b <==> CurrentField().None?
    {
      currentIndex >= |fields|
    }

    /** `record_value`: stores the answer (overwriting) and drops only that id's error. */
    method RecordValue(fieldId: string, value: string)
      modifies this
      ensures Model() == old(Model()).WithValue(fieldId, value)
    {
      answers := answers[fieldId := value];
      validationErrors := validationErrors - {fieldId};
    }

    /** `set_error`: stores the message for one id, overwriting, and touches nothing else. */
    method SetError(fieldId: string, message: string)
      modifies this
      ensures Model() == old(Model()).WithError(fieldId, message)
    {
      validationErrors := validationErrors[fieldId := message];
    }

    /** `progress_percent`, between 0 and 100, and 100 exactly when every field count is reached. */
    function ProgressPercent(): (r: real)
      reads this
      ensures 0.0 <= r <= 100.0
      ensures r == 100.0 <==> |answers| >= |fields|
      ensures r == Model().Progress()
    {
      FormModel.ProgressPercent(|answers|, |fields|)
    }

    /** `to_pdf_format`: the answers run through the export transform. */
    method ToPdfFormat() returns (pdfData: map<string, PdfExport.PdfValue>)
      ensures pdfData == PdfExport.PdfFormat(answers)
    {
      pdfData := PdfExport.TransformAnswersToPdfFormat(answers);
    }
  }

  /**
   * Saving one value for each catalogue field, in order and advancing after
   * each, from a fresh state completes the form with thirteen answers and
   * progress 100.
   */
  lemma FillCatalogueInOrder(values: seq<string>)
    requires |values| == |Fields.ANMELDUNG_FORM_FIELDS|
    ensures var f := Start(Fields.ANMELDUNG_FORM_FIELDS).SaveAll(FieldIdOf, values);
      f.IsComplete() && |f.answers| == 13 && f.Progress() == 100.0
  {
    CatalogueKeysDistinct();
    assert DistinctIds(Fields.ANMELDUNG_FORM_FIELDS, FieldIdOf) by {
      forall i, j | 0 <= i < j < |Fields.ANMELDUNG_FORM_FIELDS|
        ensures FieldIdOf(Fields.ANMELDUNG_FORM_FIELDS[i]) != FieldIdOf(Fields.ANMELDUNG_FORM_FIELDS[j])
      {
        assert KeyOf(Fields.ANMELDUNG_FORM_FIELDS[i], FieldIdKey) != KeyOf(Fields.ANMELDUNG_FORM_FIELDS[j], FieldIdKey);
      }
    }
    SaveAllCompletes(Fields.ANMELDUNG_FORM_FIELDS, FieldIdOf, values);
  }
}
