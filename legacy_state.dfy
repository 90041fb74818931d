/**
 * The first version of the form state, over the schema's field records
 * (id, label, description, type, required flag, examples, constraints).
 * It behaves like the application state without the PDF conversion.
 */
module LegacyState {
  import opened Wrappers
  import opened FormModel

  /** A schema field; `examples` and `constraints` may be absent. */
  datatype FormField = FormField(
    fieldId: string,
    fieldLabel: string,
    description: string,
    fieldType: string,
    required: bool,
    examples: Option<seq<string>>,
    constraints: Option<map<string, string>>)

  function FieldIdOf(f: FormField): string {
    f.fieldId
  }

  class FormState {
    var fields: seq<FormField>
    var currentIndex: nat
    var answers: map<string, string>
    var validationErrors: map<string, string>

    function Model(): Form<FormField>
      reads this
    {
      Form(fields, currentIndex, answers, validationErrors)
    }

    /** A fresh state over the given field list. */
    constructor (fields: seq<FormField>)
      ensures Model() == Start(fields)
    {
      this.fields := fields;
      currentIndex := 0;
      answers := map[];
      validationErrors := map[];
    }

    function CurrentField(): (r: Option<FormField>)
      reads this
      ensures r.Some? <==> currentIndex < |fields|
      ensures r.Some? ==> r.value == fields[currentIndex]
    {
      if currentIndex < |fields| then Some(fields[currentIndex]) else None
    }

    method Advance() returns (next: Option<FormField>)
      modifies this
      ensures Model() == old(Model()).Advanced()
      ensures next == CurrentField()
    {
      currentIndex := currentIndex + 1;
      next := CurrentField();
    }

    function IsComplete(): (b: bool)
      reads this
      ensures b <==> CurrentField().None?
    {
      currentIndex >= |fields|
    }

    method RecordValue(fieldId: string, value: string)
      modifies this
      ensures Model() == old(Model()).WithValue(fieldId, value)
    {
      answers := answers[fieldId := value];
      validationErrors := validationErrors - {fieldId};
    }

    method SetError(fieldId: string, message: string)
      modifies this
      ensures Model() == old(Model()).WithError(fieldId, message)
    {
      validationErrors := validationErrors[fieldId := message];
    }

    function ProgressPercent(): (r: real)
      reads this
      ensures 0.0 <= r <= 100.0
      ensures r == 100.0 <==> |answers| >= |fields|
      ensures r == Model().Progress()
    {
      FormModel.ProgressPercent(|answers|, |fields|)
    }
  }
}
