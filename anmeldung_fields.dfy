/**
 * The older copy of the field catalogue.  It declares the same dataclasses
 * and the same thirteen fields as the core catalogue; eleven of them are
 * identical and are reused from there, the two date fields describe and
 * exemplify the dotted `DD.MM.YYYY` format instead.
 */
module AnmeldungFields {
  import opened Wrappers
  import opened PyText
  import opened Fields

  const BIRTH_DATE_P1: AnmeldungField := AnmeldungField(
    fieldId := "birth_date_p1",
    pdfFieldId := "gebdat1",
    fieldLabel := "Date of birth",
    description := "Your date of birth in German format (day.month.year). Example: 15.01.1990",
    validator := NewFieldValidator("date_de", Some(map["format" := PyStr("DD.MM.YYYY")])),
    examples := ["15.01.1990", "01.12.1985"],
    required := true,
    enumValues := None)

  const MOVE_IN_DATE: AnmeldungField := AnmeldungField(
    fieldId := "move_in_date",
    pdfFieldId := "einzug",
    fieldLabel := "Move-in date",
    description := "Date you moved into the new residence (DD.MM.YYYY). Example: 15.01.2025",
    validator := NewFieldValidator("date_de", Some(map["format" := PyStr("DD.MM.YYYY")])),
    examples := ["15.01.2025", "01.02.2025"],
    required := true,
    enumValues := None)

  const ANMELDUNG_FORM_FIELDS: seq<AnmeldungField> := [
    FAMILY_NAME_P1, FIRST_NAME_P1, BIRTH_DATE_P1, BIRTH_PLACE_P1, GENDER_P1,
    FAMILY_STATUS_P1, NATIONALITY_P1, RELIGION_P1,
    MOVE_IN_DATE, NEW_STREET_ADDRESS, NEW_POSTAL_CODE, NEW_CITY, HOUSING_TYPE
  ]

  const FIELD_BY_ID: map<string, AnmeldungField> := IndexBy(ANMELDUNG_FORM_FIELDS, FieldIdKey)

  const FIELD_BY_PDF_ID: map<string, AnmeldungField> := IndexBy(ANMELDUNG_FORM_FIELDS, PdfFieldIdKey)

  /**
   * Both catalogues list the same fields in the same order under the same
   * ids, PDF ids, labels and validator tags; they differ only in the two
   * date fields' descriptions, examples and format hints.
   */
  lemma SameFieldsAsCore()
    ensures |ANMELDUNG_FORM_FIELDS| == |Fields.ANMELDUNG_FORM_FIELDS|
    ensures forall i :: 0 <= i < |ANMELDUNG_FORM_FIELDS| ==>
      var f, g := ANMELDUNG_FORM_FIELDS[i], Fields.ANMELDUNG_FORM_FIELDS[i];
      && f.fieldId == g.fieldId && f.pdfFieldId == g.pdfFieldId && f.fieldLabel == g.fieldLabel
      && f.validator.validatorType == g.validator.validatorType && f.required == g.required
      && f.enumValues == g.enumValues
    ensures forall i :: 0 <= i < |ANMELDUNG_FORM_FIELDS| && i != 2 && i != 8 ==>
      ANMELDUNG_FORM_FIELDS[i] == Fields.ANMELDUNG_FORM_FIELDS[i]
    ensures ANMELDUNG_FORM_FIELDS[2] != Fields.ANMELDUNG_FORM_FIELDS[2]
    ensures ANMELDUNG_FORM_FIELDS[8] != Fields.ANMELDUNG_FORM_FIELDS[8]
  {
  }

  /** The lookup maps have the core ones' keys, and agree with them on every field but the two date fields. */
  lemma LookupsMatchCore()
    ensures FIELD_BY_ID.Keys == Fields.FIELD_BY_ID.Keys
    ensures FIELD_BY_PDF_ID.Keys == Fields.FIELD_BY_PDF_ID.Keys
    ensures forall i :: 0 <= i < |ANMELDUNG_FORM_FIELDS| && i != 2 && i != 8 ==>
      var id := ANMELDUNG_FORM_FIELDS[i].fieldId;
      id in FIELD_BY_ID && id in Fields.FIELD_BY_ID && FIELD_BY_ID[id] == Fields.FIELD_BY_ID[id]
  {
    SameFieldsAsCore();
    IndexBySameKeys(ANMELDUNG_FORM_FIELDS, Fields.ANMELDUNG_FORM_FIELDS, FieldIdKey);
    IndexBySameKeys(ANMELDUNG_FORM_FIELDS, Fields.ANMELDUNG_FORM_FIELDS, PdfFieldIdKey);
    CatalogueKeysDistinct();
    IndexByDistinct(ANMELDUNG_FORM_FIELDS, FieldIdKey);
    IndexByDistinct(Fields.ANMELDUNG_FORM_FIELDS, FieldIdKey);
  }

  /** This copy's lookup maps are cross-consistent too. */
  lemma LookupsCrossConsistent()
    ensures CrossConsistent(FIELD_BY_ID, FIELD_BY_PDF_ID)
  {
    SameFieldsAsCore();
    CatalogueKeysDistinct();
    assert DistinctKeys(ANMELDUNG_FORM_FIELDS, FieldIdKey);
    assert DistinctKeys(ANMELDUNG_FORM_FIELDS, PdfFieldIdKey);
    IndexByCrossConsistent(ANMELDUNG_FORM_FIELDS);
  }

  /**
   * Looked up by PDF id, both copies give fields with the same voice id and
   * the same validator tag.
   */
  lemma PdfLookupMatchesCore()
    ensures FIELD_BY_PDF_ID.Keys == Fields.FIELD_BY_PDF_ID.Keys
    ensures forall pdf :: pdf in FIELD_BY_PDF_ID ==>
      && FIELD_BY_PDF_ID[pdf].fieldId == Fields.FIELD_BY_PDF_ID[pdf].fieldId
      && FIELD_BY_PDF_ID[pdf].validator.validatorType == Fields.FIELD_BY_PDF_ID[pdf].validator.validatorType
  {
    SameFieldsAsCore();
    LookupsMatchCore();
    CatalogueKeysDistinct();
    assert DistinctKeys(ANMELDUNG_FORM_FIELDS, PdfFieldIdKey);
    IndexByKeys(ANMELDUNG_FORM_FIELDS, PdfFieldIdKey);
    IndexByDistinct(ANMELDUNG_FORM_FIELDS, PdfFieldIdKey);
    IndexByDistinct(Fields.ANMELDUNG_FORM_FIELDS, PdfFieldIdKey);
    forall pdf | pdf in FIELD_BY_PDF_ID
      ensures FIELD_BY_PDF_ID[pdf].fieldId == Fields.FIELD_BY_PDF_ID[pdf].fieldId
      ensures FIELD_BY_PDF_ID[pdf].validator.validatorType == Fields.FIELD_BY_PDF_ID[pdf].validator.validatorType
    {
      var i :| 0 <= i < |ANMELDUNG_FORM_FIELDS| && KeyOf(ANMELDUNG_FORM_FIELDS[i], PdfFieldIdKey) == pdf;
      assert KeyOf(Fields.ANMELDUNG_FORM_FIELDS[i], PdfFieldIdKey) == pdf;
    }
  }
}
