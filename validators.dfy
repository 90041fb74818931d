/**
 * Field value validators: non-empty text, eight-digit German dates
 * (DDMMYYYY), integer choices within bounds and four- or five-digit postal
 * codes, behind one dispatcher keyed by the validator tag.  Every validator
 * answers `(is_valid, message)` with an empty message exactly on success.
 */
module Validators {
  import opened Wrappers
  import opened PyText

  datatype ValidationResult = ValidationResult(isValid: bool, message: string)

  const Valid: ValidationResult := ValidationResult(true, "")

  function Invalid(message: string): ValidationResult {
    ValidationResult(false, message)
  }

  // ---------------------------------------------------------------- text

  function ValidateNonEmpty(value: string): (r: ValidationResult)
    ensures r.isValid <==> !IsBlank(value)
    ensures r.isValid ==> r.message == ""
    ensures !r.isValid ==> r.message == "This field cannot be empty."
  {
    if value != [] && !IsBlank(value) then Valid else Invalid("This field cannot be empty.")
  }

  function ValidateText(value: string): (r: ValidationResult)
    ensures r == ValidateNonEmpty(value)
  {
    ValidateNonEmpty(value)
  }

  // ---------------------------------------------------------------- dates

  /** The proleptic Gregorian leap-year rule `datetime` uses. */
  predicate IsLeapYear(year: int) {
    year % 4 == 0 && (year % 100 != 0 || year % 400 == 0)
  }

  function DaysInMonth(year: int, month: int): (n: int)
    requires 1 <= month <= 12
    ensures 28 <= n <= 31
    ensures n == 29 <==> month == 2 && IsLeapYear(year)
  {
    if month == 2 then (if IsLeapYear(year) then 29 else 28)
    else if month == 4 || month == 6 || month == 9 || month == 11 then 30
    else 31
  }

  /** What `datetime(year, month, day)` accepts: years 1 to 9999, real months and days. */
  predicate ValidDate(year: int, month: int, day: int) {
    1 <= year <= 9999 && 1 <= month <= 12 && 1 <= day <= DaysInMonth(year, month)
  }

  /** A date written DDMMYYYY, each part zero-padded. */
  function FormatDate(year: nat, month: nat, day: nat): (s: string)
    ensures |s| == 8 && AllDigits(s)
  {
    Pad(day, 2) + Pad(month, 2) + Pad(year, 4)
  }

  const DATE_FORMAT_MESSAGE := "Invalid format. Use DDMMYYYY (e.g., 15011990 for January 15, 1990)."
  const DATE_INVALID_MESSAGE := "Invalid date. Check day (1-31), month (1-12), year."

  /**
   * Blank input, then anything but exactly eight digits after stripping, then
   * a day/month/year that is not a calendar date, are each refused with their
   * own message.
   */
  function ValidateDateDe(value: string): (r: ValidationResult)
    ensures IsBlank(value) ==> r == Invalid("Date cannot be empty.")
    ensures !IsBlank(value) && !(|Strip(value)| == 8 && AllDigits(Strip(value))) ==> r == Invalid(DATE_FORMAT_MESSAGE)
    ensures !IsBlank(value) && |Strip(value)| == 8 && AllDigits(Strip(value)) && !r.isValid ==> r == Invalid(DATE_INVALID_MESSAGE)
    ensures r.isValid <==> r.message == ""
  {
    if value == [] || IsBlank(value) then Invalid("Date cannot be empty.")
    else
      var t := Strip(value);
      if !(|t| == 8 && AllDigits(t)) then Invalid(DATE_FORMAT_MESSAGE)
      else
        var (day, month, year) := DateParts(t);
        if ValidDate(year, month, day) then Valid else Invalid(DATE_INVALID_MESSAGE)
  }

  /**
   * `int(t[0:2])`, `int(t[2:4])` and `int(t[4:8])`: the day, month and year of
   * eight digits, which written out again give back the same eight digits.
   */
  function DateParts(t: string): (r: (nat, nat, nat))
    requires |t| == 8 && AllDigits(t)
    ensures FormatDate(r.2, r.1, r.0) == t
  {
    var day, month, year := t[0..2], t[2..4], t[4..8];
    PadDigitsValue(day);
    PadDigitsValue(month);
    PadDigitsValue(year);
    assert t == day + month + year;
    (DigitsValue(day), DigitsValue(month), DigitsValue(year))
  }

  /** A date field accepts exactly the calendar dates written DDMMYYYY, surrounding blanks aside. */
  ghost predicate IsDateDe(value: string) {
    exists year: nat, month: nat, day: nat ::
      ValidDate(year, month, day) && Strip(value) == FormatDate(year, month, day)
  }

  lemma DateDeAcceptsExactly(value: string)
    ensures ValidateDateDe(value).isValid <==> IsDateDe(value)
  {
    if ValidateDateDe(value).isValid {
      AcceptedDateIsDate(value);
    }
    if IsDateDe(value) {
      DateIsAccepted(value);
    }
  }

  lemma AcceptedDateIsDate(value: string)
    requires ValidateDateDe(value).isValid
    ensures IsDateDe(value)
  {
    var t := Strip(value);
    var (d, m, y) := DateParts(t);
    assert ValidDate(y, m, d) && Strip(value) == FormatDate(y, m, d);
  }

  lemma DateIsAccepted(value: string)
    requires IsDateDe(value)
    ensures ValidateDateDe(value).isValid
  {
    var t := Strip(value);
    var year: nat, month: nat, day: nat :| ValidDate(year, month, day) && t == FormatDate(year, month, day);
    FormatDateParts(year, month, day);
    assert !IsBlank(value);
  }

  /** Reading a date written DDMMYYYY gives back its day, month and year. */
  lemma FormatDateParts(year: nat, month: nat, day: nat)
    requires day < 100 && month < 100 && year < 10000
    ensures DateParts(FormatDate(year, month, day)) == (day, month, year)
  {
    var t := FormatDate(year, month, day);
    assert t[0..2] == Pad(day, 2) && t[2..4] == Pad(month, 2) && t[4..8] == Pad(year, 4);
    PadValue(day, 2);
    PadValue(month, 2);
    PadValue(year, 4);
  }

  /** Writing any calendar date as DDMMYYYY gives a value the date validator accepts. */
  lemma FormatDateAccepted(year: nat, month: nat, day: nat)
    requires ValidDate(year, month, day)
    ensures ValidateDateDe(FormatDate(year, month, day)).isValid
  {
    var s := FormatDate(year, month, day);
    StripTrimmed(s);
    DateDeAcceptsExactly(s);
  }

  /** 29 February exists in 2020 and 2000 but not in 2021 or 1900; there is no year 0. */
  lemma LeapDayExamples()
    ensures ValidDate(2020, 2, 29) && ValidDate(2000, 2, 29)
    ensures !ValidDate(2021, 2, 29) && !ValidDate(1900, 2, 29) && !ValidDate(0, 1, 1)
  {
  }

  /** A DDMMYYYY value is accepted exactly when it names a calendar date. */
  lemma DateExample(s: string, day: nat, month: nat, year: nat)
    requires day < 100 && month < 100 && year < 10000 && s == FormatDate(year, month, day)
    ensures ValidateDateDe(s) == if ValidDate(year, month, day) then Valid else Invalid(DATE_INVALID_MESSAGE)
  {
    StripTrimmed(s);
    FormatDateParts(year, month, day);
  }

  /** The dotted `15.01.1990` and the six-digit `150190` are refused as badly formatted. */
  lemma DateFormatExamples(dotted: string, short: string)
    requires dotted == "15.01.1990" && short == "150190"
    ensures ValidateDateDe(dotted) == Invalid(DATE_FORMAT_MESSAGE)
    ensures ValidateDateDe(short) == Invalid(DATE_FORMAT_MESSAGE)
  {
    StripTrimmed(dotted);
    StripTrimmed(short);
  }

  // ---------------------------------------------------------------- choices

  const NOT_A_NUMBER_MESSAGE := "Must be a whole number (0, 1, 2, etc.)."

  /**
   * `int(value.strip())` must succeed and land in `[minVal, maxVal]`, with no
   * upper bound when `maxVal` is `None`.
   */
  function ValidateIntegerChoice(value: string, minVal: int, maxVal: Option<int>): (r: ValidationResult)
    ensures IsBlank(value) ==> r == Invalid("Value cannot be empty.")
    ensures !IsBlank(value) && ParseInt(Strip(value)).None? ==> r == Invalid(NOT_A_NUMBER_MESSAGE)
    ensures r.isValid <==> r.message == ""
  {
    if value == [] || IsBlank(value) then Invalid("Value cannot be empty.")
    else match ParseInt(Strip(value))
      case None => Invalid(NOT_A_NUMBER_MESSAGE)
      case Some(num) => CheckBounds(num, minVal, maxVal)
  }

  predicate InBounds(n: int, minVal: int, maxVal: Option<int>) {
    minVal <= n && (maxVal.None? || n <= maxVal.value)
  }

  /** The range check on a parsed choice: below the minimum, then above a maximum, is refused. */
  function CheckBounds(num: int, minVal: int, maxVal: Option<int>): (r: ValidationResult)
    ensures r.isValid <==> InBounds(num, minVal, maxVal)
    ensures r.isValid <==> r.message == ""
    ensures num < minVal ==>
      r == Invalid("Value " + IntToString(num) + " is too small (minimum " + IntToString(minVal) + ").")
    ensures (minVal <= num && maxVal.Some? && num > maxVal.value) ==>
      r == Invalid("Value " + IntToString(num) + " is too large (maximum " + IntToString(maxVal.value) + ").")
  {
    if num < minVal then
      Invalid("Value " + IntToString(num) + " is too small (minimum " + IntToString(minVal) + ").")
    else if maxVal.Some? && num > maxVal.value then
      Invalid("Value " + IntToString(num) + " is too large (maximum " + IntToString(maxVal.value) + ").")
    else Valid
  }

  /**
   * A non-blank value that reads as a whole number gets the range check's
   * answer: too small before too large, each with the number and the bound.
   */
  lemma IntegerChoiceRangeMessages(value: string, minVal: int, maxVal: Option<int>)
    requires !IsBlank(value) && ParseInt(Strip(value)).Some?
    ensures ValidateIntegerChoice(value, minVal, maxVal) == CheckBounds(ParseInt(Strip(value)).value, minVal, maxVal)
  {
  }

  /** A choice is accepted exactly when it reads as a whole number within the bounds. */
  lemma IntegerChoiceAcceptsExactly(value: string, minVal: int, maxVal: Option<int>)
    ensures ValidateIntegerChoice(value, minVal, maxVal).isValid <==>
      ParseInt(Strip(value)).Some? && InBounds(ParseInt(Strip(value)).value, minVal, maxVal)
  {
    if value == [] || IsBlank(value) {
      ParseEmpty();
      assert Strip(value) == [];
    }
  }

  /** Saying any number within the bounds, as `str(n)`, is accepted. */
  lemma IntegerChoiceAcceptsInRange(n: int, minVal: int, maxVal: Option<int>)
    requires InBounds(n, minVal, maxVal)
    ensures ValidateIntegerChoice(IntToString(n), minVal, maxVal) == Valid
  {
    var s := IntToString(n);
    ParseIntToString(n);
    StripTrimmed(s);
    assert Strip(s) == s;
    IntegerChoiceAcceptsExactly(s, minVal, maxVal);
    assert ValidateIntegerChoice(s, minVal, maxVal).isValid;
  }

  // ---------------------------------------------------------------- postal codes

  /** Four (older) or five (standard) digits after stripping. */
  function ValidatePostalCodeDe(value: string): (r: ValidationResult)
    ensures r.isValid <==> (|Strip(value)| == 4 || |Strip(value)| == 5) && AllDigits(Strip(value))
    ensures IsBlank(value) ==> r == Invalid("Postal code cannot be empty.")
    ensures !IsBlank(value) && !r.isValid ==> r == Invalid("Postal code must be 4 or 5 digits.")
    ensures r.isValid ==> r.message == ""
  {
    if value == [] || IsBlank(value) then Invalid("Postal code cannot be empty.")
    else
      var t := Strip(value);
      if |t| == 5 && AllDigits(t) then Valid
      else if |t| == 4 && AllDigits(t) then Valid
      else Invalid("Postal code must be 4 or 5 digits.")
  }

  /** Both lengths are accepted; six digits are not. */
  lemma PostalCodeExamples(five: string, four: string, six: string)
    requires five == "80802" && four == "8080" && six == "808021"
    ensures ValidatePostalCodeDe(five) == Valid && ValidatePostalCodeDe(four) == Valid
    ensures ValidatePostalCodeDe(six) == Invalid("Postal code must be 4 or 5 digits.")
  {
    StripTrimmed(five);
    StripTrimmed(four);
    StripTrimmed(six);
  }

  // ---------------------------------------------------------------- dispatcher

  /**
   * The dispatcher reads `min` and `max` for choices; a bound of any type but
   * an integer (or `None` for `max`) makes the comparison raise.
   */
  predicate ChoiceBoundsWellTyped(config: map<string, PyValue>) {
    && ("min" in config ==> config["min"].PyInt?)
    && ("max" in config ==> config["max"].PyInt? || config["max"].PyNone?)
  }

  function MinBound(config: map<string, PyValue>): int
    requires ChoiceBoundsWellTyped(config)
  {
    if "min" in config then config["min"].i else 0
  }

  function MaxBound(config: map<string, PyValue>): Option<int>
    requires ChoiceBoundsWellTyped(config)
  {
    if "max" in config && config["max"].PyInt? then Some(config["max"].i) else None
  }

  /**
   * `validate_by_type`: routes on the tag; a missing configuration is `{}`;
   * an unknown tag passes everything.
   */
  function ValidateByType(validatorType: string, value: string, config: Option<map<string, PyValue>>): (r: ValidationResult)
    requires validatorType == "integer_choice" ==> ChoiceBoundsWellTyped(config.GetOr(map[]))
    ensures r.isValid <==> r.message == ""
    ensures validatorType == "text" ==> r == ValidateText(value)
    ensures validatorType == "date_de" ==> r == ValidateDateDe(value)
    ensures validatorType == "postal_code_de" ==> r == ValidatePostalCodeDe(value)
    ensures validatorType == "integer_choice" ==>
      r == ValidateIntegerChoice(value, MinBound(config.GetOr(map[])), MaxBound(config.GetOr(map[])))
    ensures validatorType !in {"text", "date_de", "postal_code_de", "integer_choice"} ==> r == Valid
  {
    var cfg := config.GetOr(map[]);
    if validatorType == "text" then ValidateText(value)
    else if validatorType == "date_de" then ValidateDateDe(value)
    else if validatorType == "postal_code_de" then ValidatePostalCodeDe(value)
    else if validatorType == "integer_choice" then ValidateIntegerChoice(value, MinBound(cfg), MaxBound(cfg))
    else Valid
  }

  /** What each tag accepts, stated without the validators' control flow. */
  ghost predicate Accepts(validatorType: string, value: string, config: map<string, PyValue>)
    requires validatorType == "integer_choice" ==> ChoiceBoundsWellTyped(config)
  {
    match validatorType
    case "text" => !IsBlank(value)
    case "date_de" => IsDateDe(value)
    case "postal_code_de" => (|Strip(value)| == 4 || |Strip(value)| == 5) && AllDigits(Strip(value))
    case "integer_choice" =>
      ParseInt(Strip(value)).Some? && InBounds(ParseInt(Strip(value)).value, MinBound(config), MaxBound(config))
    case _ => true
  }

  lemma ValidateByTypeAcceptsExactly(validatorType: string, value: string, config: Option<map<string, PyValue>>)
    requires validatorType == "integer_choice" ==> ChoiceBoundsWellTyped(config.GetOr(map[]))
    ensures ValidateByType(validatorType, value, config).isValid <==> Accepts(validatorType, value, config.GetOr(map[]))
  {
    var cfg := config.GetOr(map[]);
    if validatorType == "text" {
      assert ValidateByType(validatorType, value, config) == ValidateText(value);
    } else if validatorType == "date_de" {
      assert ValidateByType(validatorType, value, config) == ValidateDateDe(value);
      DateDeAcceptsExactly(value);
    } else if validatorType == "postal_code_de" {
      assert ValidateByType(validatorType, value, config) == ValidatePostalCodeDe(value);
    } else if validatorType == "integer_choice" {
      assert ValidateByType(validatorType, value, config) == ValidateIntegerChoice(value, MinBound(cfg), MaxBound(cfg));
      IntegerChoiceAcceptsExactly(value, MinBound(cfg), MaxBound(cfg));
    }
  }

  /** With no configuration a choice has lower bound 0 and no upper bound. */
  lemma ChoiceDefaults(value: string)
    ensures ValidateByType("integer_choice", value, None) == ValidateIntegerChoice(value, 0, None)
    ensures ValidateByType("integer_choice", value, Some(map[])) == ValidateIntegerChoice(value, 0, None)
  {
    var empty: map<string, PyValue> := map[];
    assert "integer_choice" != "text" && "integer_choice" != "date_de" && "integer_choice" != "postal_code_de" by {
      assert "integer_choice"[0] == 'i';
    }
    assert MinBound(empty) == 0 && MaxBound(empty) == None;
  }
}
