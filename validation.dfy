/**
 * The application-level field check: a required/optional gate in front of
 * the type validators, and the lookup of a choice field's display label.
 */
module Validation {
  import opened Wrappers
  import opened PyText
  import opened Fields
  import opened Validators

  /** A field's configuration is usable by the dispatcher (choice bounds are integers). */
  predicate Dispatchable(field: AnmeldungField) {
    field.validator.validatorType == "integer_choice" ==> ChoiceBoundsWellTyped(field.validator.config)
  }

  /**
   * `validate_field`: a blank value is refused for a required field with
   * "<label> is required." and accepted for an optional one; any other value
   * goes to the field's type validator with its configuration.
   */
  function ValidateField(field: AnmeldungField, value: string): (r: ValidationResult)
    requires Dispatchable(field)
    ensures field.required && IsBlank(value) ==> r == Invalid(field.fieldLabel + " is required.")
    ensures !field.required && IsBlank(value) ==> r == Valid
    ensures !IsBlank(value) ==>
      r == ValidateByType(field.validator.validatorType, value, Some(field.validator.config))
  {
    if field.required && (value == [] || IsBlank(value)) then Invalid(field.fieldLabel + " is required.")
    else if value == [] || IsBlank(value) then Valid
    else ValidateByType(field.validator.validatorType, value, Some(field.validator.config))
  }

  /** Every catalogue field can be handed to the dispatcher. */
  lemma CatalogueDispatchable()
    ensures forall f :: f in Fields.ANMELDUNG_FORM_FIELDS ==> Dispatchable(f)
  {
    CatalogueValidators();
  }

  /**
   * A required field is reported valid only for a non-blank value that its
   * type accepts, and then with an empty message.
   */
  lemma RequiredValidOnlyIfAccepted(field: AnmeldungField, value: string)
    requires Dispatchable(field) && field.required
    ensures ValidateField(field, value).isValid <==>
      !IsBlank(value) && Accepts(field.validator.validatorType, value, field.validator.config)
    ensures ValidateField(field, value).isValid <==> ValidateField(field, value).message == ""
  {
    ValidateByTypeAcceptsExactly(field.validator.validatorType, value, Some(field.validator.config));
  }

  /** Any value the field's type accepts passes an optional field; so does a blank one. */
  lemma OptionalAcceptsBlankOrAccepted(field: AnmeldungField, value: string)
    requires Dispatchable(field) && !field.required
    ensures ValidateField(field, value).isValid <==>
      IsBlank(value) || Accepts(field.validator.validatorType, value, field.validator.config)
  {
    ValidateByTypeAcceptsExactly(field.validator.validatorType, value, Some(field.validator.config));
  }

  /**
   * `get_enum_display`: the label under `int(value)` when the field has a
   * non-empty label map that holds that index, otherwise the value itself.
   */
  function GetEnumDisplay(field: AnmeldungField, value: string): (r: string)
    ensures field.enumValues.None? || field.enumValues.value == map[] ==> r == value
    ensures ParseInt(value).None? ==> r == value
    ensures field.enumValues.Some? && ParseInt(value).Some? && ParseInt(value).value in field.enumValues.value ==>
      r == field.enumValues.value[ParseInt(value).value]
    ensures r == value || (field.enumValues.Some? && r in field.enumValues.value.Values)
  {
    if field.enumValues.None? || field.enumValues.value == map[] then value
    else match ParseInt(value)
      case None => value
      case Some(idx) => if idx in field.enumValues.value then field.enumValues.value[idx] else value
  }

  /** Saying a choice's index, as `str(i)`, displays that choice's label. */
  lemma EnumDisplayOfIndex(field: AnmeldungField, i: int)
    requires field.enumValues.Some? && i in field.enumValues.value
    ensures GetEnumDisplay(field, IntToString(i)) == field.enumValues.value[i]
  {
    ParseIntToString(i);
  }
}
