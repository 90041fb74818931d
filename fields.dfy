/**
 * The Anmeldung (Munich residence registration) field catalogue: each
 * field's voice id, PDF form id, label, description, validator tag and
 * configuration, examples, required flag and choice labels, in the order
 * the guided flow asks for them, and the two lookup maps built from it.
 */
module Fields {
  import opened Wrappers
  import opened PyText

  /** A validator tag and its configuration (`min`/`max` for choices, a `format` hint for dates). */
  datatype FieldValidator = FieldValidator(validatorType: string, config: map<string, PyValue>)

  /** `FieldValidator(type, config)`; `__post_init__` turns a missing configuration into `{}`. */
  function NewFieldValidator(validatorType: string, config: Option<map<string, PyValue>>): (v: FieldValidator)
    ensures v.validatorType == validatorType
    ensures config.None? ==> v.config == map[]
    ensures config.Some? ==> v.config == config.value
  {
    FieldValidator(validatorType, config.GetOr(map[]))
  }

  datatype AnmeldungField = AnmeldungField(
    fieldId: string,
    pdfFieldId: string,
    fieldLabel: string,
    description: string,
    validator: FieldValidator,
    examples: seq<string>,
    required: bool,
    enumValues: Option<map<int, string>>)

  const FAMILY_NAME_P1: AnmeldungField := AnmeldungField(
    fieldId := "family_name_p1",
    pdfFieldId := "fam1",
    fieldLabel := "Family name",
    description := "Your full legal current family name including all name components. Example: Mueller, von Gräfenberg, López García",
    validator := NewFieldValidator("text", None),
    examples := ["Mueller", "von Gräfenberg", "López García"],
    required := true,
    enumValues := None)

  const FIRST_NAME_P1: AnmeldungField := AnmeldungField(
    fieldId := "first_name_p1",
    pdfFieldId := "vorn1",
    fieldLabel := "First name(s)",
    description := "Your first name(s) as officially registered. If multiple names, you can mark the primary one. Example: Maria, Johann, Maria-Luisa",
    validator := NewFieldValidator("text", None),
    examples := ["Maria", "Johann", "Maria-Luisa"],
    required := true,
    enumValues := None)

  const BIRTH_DATE_P1: AnmeldungField := AnmeldungField(
    fieldId := "birth_date_p1",
    pdfFieldId := "gebdat1",
    fieldLabel := "Date of birth",
    description := "Your date of birth (DDMMYY format - day, month, year without separators). Example: 150190 for January 15, 1990",
    validator := NewFieldValidator("date_de", Some(map["format" := PyStr("DDMMYY")])),
    examples := ["150190", "011285"],
    required := true,
    enumValues := None)

  const BIRTH_PLACE_P1: AnmeldungField := AnmeldungField(
    fieldId := "birth_place_p1",
    pdfFieldId := "gebort1",
    fieldLabel := "Place of birth",
    description := "City, region/district; if born abroad, include country. Example: Berlin, München Bayern, São Paulo Brasilien",
    validator := NewFieldValidator("text", None),
    examples := ["Berlin", "München, Bayern", "São Paulo, Brasilien"],
    required := true,
    enumValues := None)

  const GENDER_P1: AnmeldungField := AnmeldungField(
    fieldId := "gender_p1",
    pdfFieldId := "geschl1",
    fieldLabel := "Gender",
    description := "Your gender (choose one: 0=Male, 1=Female, 2=No answer, 3=Diverse)",
    validator := NewFieldValidator("integer_choice", Some(map["min" := PyInt(0), "max" := PyInt(3)])),
    examples := ["0", "1", "3"],
    required := true,
    enumValues := Some(map[0 := "M (Male / Männlich)", 1 := "W (Female / Weiblich)", 2 := "o.A. (No answer / ohne Angabe)", 3 := "D (Diverse)"]))

  /** The family-status codes of the registration form and their labels. */
  const FAMILY_STATUS_LABELS: map<int, string> := map[0 := "LD (Single / ledig)", 1 := "VH (Married / verheiratet)", 2 := "VW (Widowed / verwitwet)", 3 := "GS (Divorced / geschieden)", 4 := "LP (Registered partnership / Lebenspartnerschaft)", 5 := "LV (Partner deceased / Lebenspartner verstorben)", 6 := "LA (Partnership dissolved / Lebenspartnerschaft aufgehoben)", 7 := "EA (Marriage annulled / Ehe aufgehoben)", 8 := "LE (Partner declared dead / Lebenspartner für tot erklärt)", 9 := "NB (Unknown / nicht bekannt)"]

  const FAMILY_STATUS_P1: AnmeldungField := AnmeldungField(
    fieldId := "family_status_p1",
    pdfFieldId := "famst1",
    fieldLabel := "Family status",
    description := "Your legal family status (choose one): 0=single, 1=married, 2=widowed, 3=divorced, 4=registered partnership, 5=partner deceased, 6=partnership dissolved, 7=marriage annulled, 8=partner declared dead, 9=unknown",
    validator := NewFieldValidator("integer_choice", Some(map["min" := PyInt(0), "max" := PyInt(9)])),
    examples := ["0", "1"],
    required := true,
    enumValues := Some(FAMILY_STATUS_LABELS))

  const NATIONALITY_P1: AnmeldungField := AnmeldungField(
    fieldId := "nationality_p1",
    pdfFieldId := "staatsang1",
    fieldLabel := "Nationality",
    description := "Your nationality (if multiple nationalities, list all; if stateless, note 'stateless'). Example: German, German and Brazilian, Stateless",
    validator := NewFieldValidator("text", None),
    examples := ["German", "German, Brazilian", "Stateless"],
    required := true,
    enumValues := None)

  const RELIGION_P1: AnmeldungField := AnmeldungField(
    fieldId := "religion_p1",
    pdfFieldId := "rel1",
    fieldLabel := "Religion",
    description := "Your religious affiliation (choose one): 0=Roman Catholic, 1=Old Catholic, 8=Protestant, 9=Lutheran, 21=None (no public religious organization), 22=Other",
    validator := NewFieldValidator("integer_choice", Some(map["min" := PyInt(0), "max" := PyInt(22)])),
    examples := ["0", "8", "21"],
    required := true,
    enumValues := Some(map[0 := "rk (Roman Catholic / Römisch-katholisch)", 1 := "ak (Old Catholic / Altkatholisch)", 8 := "ev (Protestant / Evangelisch)", 9 := "lt (Lutheran / Evangelisch-lutherisch)", 21 := "oa (None / keiner öffentlich-rechtlichen Religionsgesellschaft angehörig)", 22 := "other (Other / Sonstiges)"]))

  const MOVE_IN_DATE: AnmeldungField := AnmeldungField(
    fieldId := "move_in_date",
    pdfFieldId := "einzug",
    fieldLabel := "Move-in date",
    description := "Date you moved into the new residence (DDMMYY format). Example: 150125 for January 15, 2025",
    validator := NewFieldValidator("date_de", Some(map["format" := PyStr("DDMMYY")])),
    examples := ["150125", "010225"],
    required := true,
    enumValues := None)

  const NEW_STREET_ADDRESS: AnmeldungField := AnmeldungField(
    fieldId := "new_street_address",
    pdfFieldId := "neuw.strasse",
    fieldLabel := "New address (street)",
    description := "Street name, house number, and floor/apartment if applicable. Example: Leopoldstraße 25a, Sonnenallee 5 3. Stock",
    validator := NewFieldValidator("text", None),
    examples := ["Leopoldstraße 25 a", "Sonnenallee 5, 3. Stock"],
    required := true,
    enumValues := None)

  const NEW_POSTAL_CODE: AnmeldungField := AnmeldungField(
    fieldId := "new_postal_code",
    pdfFieldId := "nw.plz",
    fieldLabel := "Postal code",
    description := "5-digit German postal code (PLZ). Example: 80802, 10115",
    validator := NewFieldValidator("postal_code_de", Some(map["min_digits" := PyInt(4), "max_digits" := PyInt(5)])),
    examples := ["80802", "10115"],
    required := true,
    enumValues := None)

  const NEW_CITY: AnmeldungField := AnmeldungField(
    fieldId := "new_city",
    pdfFieldId := "nw.ort",
    fieldLabel := "City",
    description := "City or municipality name. Example: München, Berlin",
    validator := NewFieldValidator("text", None),
    examples := ["München", "Berlin"],
    required := true,
    enumValues := None)

  const HOUSING_TYPE: AnmeldungField := AnmeldungField(
    fieldId := "housing_type",
    pdfFieldId := "wohnung",
    fieldLabel := "Housing type",
    description := "Type of residence (choose one): 0=sole residence (only apartment in Germany), 1=main residence (primary residence), 2=secondary residence (additional apartment)",
    validator := NewFieldValidator("integer_choice", Some(map["min" := PyInt(0), "max" := PyInt(2)])),
    examples := ["0", "1"],
    required := true,
    enumValues := Some(map[0 := "alleinige Wohnung (Sole residence)", 1 := "Hauptwohnung (Main residence)", 2 := "Nebenwohnung (Secondary residence)"]))
  /** The fields in the order the guided flow collects them. */
  const ANMELDUNG_FORM_FIELDS: seq<AnmeldungField> := [
    FAMILY_NAME_P1, FIRST_NAME_P1, BIRTH_DATE_P1, BIRTH_PLACE_P1, GENDER_P1,
    FAMILY_STATUS_P1, NATIONALITY_P1, RELIGION_P1,
    MOVE_IN_DATE, NEW_STREET_ADDRESS, NEW_POSTAL_CODE, NEW_CITY, HOUSING_TYPE
  ]

  /** The four validator tags the catalogue uses. */
  const VALIDATOR_TYPES: set<string> := {"text", "date_de", "integer_choice", "postal_code_de"}

  /** Which identifier a lookup map is keyed by. */
  datatype Key = FieldIdKey | PdfFieldIdKey

  function KeyOf(f: AnmeldungField, key: Key): string {
    match key
    case FieldIdKey => f.fieldId
    case PdfFieldIdKey => f.pdfFieldId
  }

  /** `{key(f): f for f in fields}`: a later field overwrites an earlier one under the same key. */
  function IndexBy(fields: seq<AnmeldungField>, key: Key): map<string, AnmeldungField>
    decreases |fields|
  {
    if fields == [] then map[]
    else IndexBy(fields[..|fields| - 1], key)[KeyOf(fields[|fields| - 1], key) := fields[|fields| - 1]]
  }

  /** `FIELD_BY_ID`: voice field id to field. */
  const FIELD_BY_ID: map<string, AnmeldungField> := IndexBy(ANMELDUNG_FORM_FIELDS, FieldIdKey)

  /** `FIELD_BY_PDF_ID`: PDF field id to field. */
  const FIELD_BY_PDF_ID: map<string, AnmeldungField> := IndexBy(ANMELDUNG_FORM_FIELDS, PdfFieldIdKey)

  function FieldIds(fields: seq<AnmeldungField>): (ids: seq<string>)
    ensures |ids| == |fields| && forall i :: 0 <= i < |fields| ==> ids[i] == fields[i].fieldId
  {
    seq(|fields|, i requires 0 <= i < |fields| => fields[i].fieldId)
  }

  predicate DistinctKeys(fields: seq<AnmeldungField>, key: Key) {
    forall i, j :: 0 <= i < j < |fields| ==> KeyOf(fields[i], key) != KeyOf(fields[j], key)
  }

  function KeySet(fields: seq<AnmeldungField>, key: Key): set<string> {
    set i | 0 <= i < |fields| :: KeyOf(fields[i], key)
  }

  lemma KeySetSnoc(fields: seq<AnmeldungField>, key: Key)
    requires fields != []
    ensures KeySet(fields, key) == KeySet(fields[..|fields| - 1], key) + {KeyOf(fields[|fields| - 1], key)}
  {
    var init := fields[..|fields| - 1];
    forall i | 0 <= i < |init| ensures init[i] == fields[i] {}
    assert forall k :: k in KeySet(fields, key) ==> k in KeySet(init, key) || k == KeyOf(fields[|fields| - 1], key);
  }

  /** A lookup map files every field under its own key, and its keys are exactly the fields' keys. */
  lemma {:induction false} IndexByKeys(fields: seq<AnmeldungField>, key: Key)
    ensures forall k :: k in IndexBy(fields, key) ==> KeyOf(IndexBy(fields, key)[k], key) == k
    ensures IndexBy(fields, key).Keys == KeySet(fields, key)
    decreases |fields|
  {
    if fields != [] {
      IndexByKeys(fields[..|fields| - 1], key);
      KeySetSnoc(fields, key);
    }
  }

  /** With distinct keys a lookup map has one entry per field and maps each field's key back to it. */
  lemma {:induction false} IndexByDistinct(fields: seq<AnmeldungField>, key: Key)
    requires DistinctKeys(fields, key)
    ensures |IndexBy(fields, key)| == |fields|
    ensures forall i :: 0 <= i < |fields| ==> KeyOf(fields[i], key) in IndexBy(fields, key)
    ensures forall i :: 0 <= i < |fields| ==> IndexBy(fields, key)[KeyOf(fields[i], key)] == fields[i]
    decreases |fields|
  {
    IndexByKeys(fields, key);
    if fields != [] {
      var init, last := fields[..|fields| - 1], fields[|fields| - 1];
      assert DistinctKeys(init, key);
      IndexByDistinct(init, key);
      IndexByKeys(init, key);
      assert KeyOf(last, key) !in IndexBy(init, key) by {
        forall i | 0 <= i < |init| ensures KeyOf(init[i], key) != KeyOf(last, key) {
          assert init[i] == fields[i];
        }
      }
      forall i | 0 <= i < |fields| ensures IndexBy(fields, key)[KeyOf(fields[i], key)] == fields[i] {
        if i < |init| { assert init[i] == fields[i]; }
      }
    }
  }

  /** Two field lists with the same keys position by position give lookup maps with the same keys. */
  lemma {:induction false} IndexBySameKeys(a: seq<AnmeldungField>, b: seq<AnmeldungField>, key: Key)
    requires |a| == |b| && forall i :: 0 <= i < |a| ==> KeyOf(a[i], key) == KeyOf(b[i], key)
    ensures IndexBy(a, key).Keys == IndexBy(b, key).Keys
    decreases |a|
  {
    if a != [] {
      IndexBySameKeys(a[..|a| - 1], b[..|b| - 1], key);
    }
  }

  /**
   * The two lookup maps agree: every field found by id is found again by its
   * PDF id, and the other way round.
   */
  predicate CrossConsistent(byId: map<string, AnmeldungField>, byPdfId: map<string, AnmeldungField>) {
    && (forall id :: id in byId ==>
          byId[id].fieldId == id && byId[id].pdfFieldId in byPdfId && byPdfId[byId[id].pdfFieldId] == byId[id])
    && (forall pdf :: pdf in byPdfId ==>
          byPdfId[pdf].pdfFieldId == pdf && byPdfId[pdf].fieldId in byId && byId[byPdfId[pdf].fieldId] == byPdfId[pdf])
  }

  /** Lookup maps built from a list with distinct ids and distinct PDF ids are cross-consistent. */
  lemma IndexByCrossConsistent(fields: seq<AnmeldungField>)
    requires DistinctKeys(fields, FieldIdKey) && DistinctKeys(fields, PdfFieldIdKey)
    ensures CrossConsistent(IndexBy(fields, FieldIdKey), IndexBy(fields, PdfFieldIdKey))
  {
    var byId, byPdf := IndexBy(fields, FieldIdKey), IndexBy(fields, PdfFieldIdKey);
    IndexByKeys(fields, FieldIdKey);
    IndexByKeys(fields, PdfFieldIdKey);
    IndexByDistinct(fields, FieldIdKey);
    IndexByDistinct(fields, PdfFieldIdKey);
    forall id | id in byId
      ensures byId[id].pdfFieldId in byPdf && byPdf[byId[id].pdfFieldId] == byId[id]
    {
      var i :| 0 <= i < |fields| && KeyOf(fields[i], FieldIdKey) == id;
      assert byId[id] == fields[i];
      assert KeyOf(fields[i], PdfFieldIdKey) in byPdf;
    }
    forall pdf | pdf in byPdf
      ensures byPdf[pdf].fieldId in byId && byId[byPdf[pdf].fieldId] == byPdf[pdf]
    {
      var i :| 0 <= i < |fields| && KeyOf(fields[i], PdfFieldIdKey) == pdf;
      assert byPdf[pdf] == fields[i];
      assert KeyOf(fields[i], FieldIdKey) in byId;
    }
  }

  /** The catalogue: thirteen fields from `family_name_p1` to `housing_type`, all required. */
  lemma CatalogueOrder()
    ensures FieldIds(ANMELDUNG_FORM_FIELDS) == [
      "family_name_p1", "first_name_p1", "birth_date_p1", "birth_place_p1", "gender_p1",
      "family_status_p1", "nationality_p1", "religion_p1",
      "move_in_date", "new_street_address", "new_postal_code", "new_city", "housing_type"]
    ensures forall f :: f in ANMELDUNG_FORM_FIELDS ==> f.required
  {
  }

  /** Field ids are pairwise distinct, and so are PDF field ids. */
  lemma CatalogueKeysDistinct()
    ensures DistinctKeys(ANMELDUNG_FORM_FIELDS, FieldIdKey)
    ensures DistinctKeys(ANMELDUNG_FORM_FIELDS, PdfFieldIdKey)
  {
  }

  /**
   * A field uses one of the four validator tags; it carries display labels
   * exactly when it is a choice field, whose bounds are then integers and
   * whose every label index lies within them.
   */
  predicate WellConfigured(f: AnmeldungField) {
    && f.validator.validatorType in VALIDATOR_TYPES
    && (f.enumValues.Some? <==> f.validator.validatorType == "integer_choice")
    && (f.validator.validatorType == "integer_choice" ==>
      && "min" in f.validator.config && f.validator.config["min"].PyInt?
      && "max" in f.validator.config && f.validator.config["max"].PyInt?
      && f.enumValues.Some? && |f.enumValues.value| > 0
      && forall k :: k in f.enumValues.value ==>
           f.validator.config["min"].i <= k <= f.validator.config["max"].i)
  }

  lemma GenderWellConfigured() ensures WellConfigured(GENDER_P1) {}
  lemma FamilyStatusWellConfigured() ensures WellConfigured(FAMILY_STATUS_P1) {
    FamilyStatusLabels();
    ChoiceWellConfigured(FAMILY_STATUS_P1, 0, 9);
  }

  /** The ten family-status codes, 0 to 9, each have a label. */
  lemma FamilyStatusLabels()
    ensures |FAMILY_STATUS_LABELS| > 0
    ensures forall k :: k in FAMILY_STATUS_LABELS ==> 0 <= k <= 9
  {
    assert 0 in FAMILY_STATUS_LABELS;
    FamilyStatusCodes();
  }

  lemma FamilyStatusCodes()
    ensures forall k :: k in FAMILY_STATUS_LABELS ==> 0 <= k <= 9
  {
  }

  /** An `integer_choice` field with integer bounds, whose labels lie within them, is well configured. */
  lemma ChoiceWellConfigured(f: AnmeldungField, lo: int, hi: int)
    requires f.validator == FieldValidator("integer_choice", map["min" := PyInt(lo), "max" := PyInt(hi)])
    requires f.enumValues.Some? && |f.enumValues.value| > 0
    requires forall k :: k in f.enumValues.value ==> lo <= k <= hi
    ensures WellConfigured(f)
  {
  }
  lemma ReligionWellConfigured() ensures WellConfigured(RELIGION_P1) {}
  lemma HousingTypeWellConfigured() ensures WellConfigured(HOUSING_TYPE) {}

  lemma TextFieldsWellConfigured()
    ensures WellConfigured(FAMILY_NAME_P1) && WellConfigured(FIRST_NAME_P1) && WellConfigured(BIRTH_DATE_P1)
    ensures WellConfigured(BIRTH_PLACE_P1) && WellConfigured(NATIONALITY_P1) && WellConfigured(MOVE_IN_DATE)
    ensures WellConfigured(NEW_STREET_ADDRESS) && WellConfigured(NEW_POSTAL_CODE) && WellConfigured(NEW_CITY)
  {
  }

  /** Every catalogue field is well configured. */
  lemma CatalogueValidators()
    ensures forall f :: f in ANMELDUNG_FORM_FIELDS ==> WellConfigured(f)
  {
    GenderWellConfigured();
    FamilyStatusWellConfigured();
    ReligionWellConfigured();
    HousingTypeWellConfigured();
    TextFieldsWellConfigured();
  }

  /** Both lookup maps hold all thirteen fields, each under its own id. */
  lemma CatalogueLookups()
    ensures |FIELD_BY_ID| == |FIELD_BY_PDF_ID| == |ANMELDUNG_FORM_FIELDS| == 13
    ensures forall f :: f in ANMELDUNG_FORM_FIELDS ==>
      f.fieldId in FIELD_BY_ID && FIELD_BY_ID[f.fieldId] == f &&
      f.pdfFieldId in FIELD_BY_PDF_ID && FIELD_BY_PDF_ID[f.pdfFieldId] == f
    ensures forall id :: id in FIELD_BY_ID ==> FIELD_BY_ID[id].fieldId == id && FIELD_BY_ID[id] in ANMELDUNG_FORM_FIELDS
    ensures forall pdf :: pdf in FIELD_BY_PDF_ID ==>
      FIELD_BY_PDF_ID[pdf].pdfFieldId == pdf && FIELD_BY_PDF_ID[pdf] in ANMELDUNG_FORM_FIELDS
    ensures CrossConsistent(FIELD_BY_ID, FIELD_BY_PDF_ID)
  {
    CatalogueKeysDistinct();
    IndexByCrossConsistent(ANMELDUNG_FORM_FIELDS);
    IndexByKeys(ANMELDUNG_FORM_FIELDS, FieldIdKey);
    IndexByKeys(ANMELDUNG_FORM_FIELDS, PdfFieldIdKey);
    IndexByDistinct(ANMELDUNG_FORM_FIELDS, FieldIdKey);
    IndexByDistinct(ANMELDUNG_FORM_FIELDS, PdfFieldIdKey);
  }
}
