/**
 * The vehicle form of src/components/VehicleForm.tsx: the two Brazilian plate
 * grammars, the as-you-type plate formatter, and the submit handler that
 * collects one error per field and hands the record on only when there is none.
 */
module VehicleFormComponent {

  import opened Wrappers
  import opened JsText
  import opened VehicleTypes

  // ---------------------------------------------------------------- plate grammars

  /** One position of a plate regular expression: `[A-Z]`, `\d` or a literal `-`. */
  datatype CharClass = Letter | Digit | Hyphen

  predicate InClass(k: CharClass, c: char) {
    match k
    case Letter => IsUpperLetter(c)
    case Digit => IsDigit(c)
    case Hyphen => c == '-'
  }

  /** Whether `s` matches the anchored pattern `^p$`. */
  function Matches(p: seq<CharClass>, s: string): (b: bool)
    ensures b <==> |s| == |p| && forall i :: 0 <= i < |s| ==> InClass(p[i], s[i])
  {
    if p == [] then s == []
    else s != [] && InClass(p[0], s[0]) && Matches(p[1..], s[1..])
  }

  /** `/^[A-Z]{3}-\d{4}$/`: the legacy plate, e.g. ABC-1234. */
  const OldFormat: seq<CharClass> := [Letter, Letter, Letter, Hyphen, Digit, Digit, Digit, Digit]

  /** `/^[A-Z]{3}\d[A-Z]\d{2}$/`: the Mercosul plate, e.g. ABC1D23. */
  const NewFormat: seq<CharClass> := [Letter, Letter, Letter, Digit, Letter, Digit, Digit]

  /** `/^[A-Z]{3}\d{4}$/`: a legacy plate typed without its hyphen. */
  const OldFormatCompact: seq<CharClass> := [Letter, Letter, Letter, Digit, Digit, Digit, Digit]

  /** Three letters, a hyphen and four digits, position by position. */
  predicate IsLegacyPlate(u: string) {
    |u| == 8 && IsUpperLetter(u[0]) && IsUpperLetter(u[1]) && IsUpperLetter(u[2]) && u[3] == '-'
    && IsDigit(u[4]) && IsDigit(u[5]) && IsDigit(u[6]) && IsDigit(u[7])
  }

  /** Three letters, a digit, a letter and two digits, position by position. */
  predicate IsMercosulPlate(u: string) {
    |u| == 7 && IsUpperLetter(u[0]) && IsUpperLetter(u[1]) && IsUpperLetter(u[2])
    && IsDigit(u[3]) && IsUpperLetter(u[4]) && IsDigit(u[5]) && IsDigit(u[6])
  }

  /** `validateLicensePlate`: the upper-cased plate is a legacy or a Mercosul plate. */
  function ValidateLicensePlate(plate: string): (ok: bool)
    ensures ok <==> IsLegacyPlate(ToUpperCase(plate)) || IsMercosulPlate(ToUpperCase(plate))
    ensures ok ==> |plate| == 7 || |plate| == 8
  {
    LegacyPattern(ToUpperCase(plate));
    MercosulPattern(ToUpperCase(plate));
    Matches(OldFormat, ToUpperCase(plate)) || Matches(NewFormat, ToUpperCase(plate))
  }

  /** The legacy regular expression accepts exactly the legacy plates. */
  lemma LegacyPattern(u: string)
    ensures Matches(OldFormat, u) <==> IsLegacyPlate(u)
  {
    assert OldFormat[0] == Letter && OldFormat[1] == Letter && OldFormat[2] == Letter && OldFormat[3] == Hyphen;
    assert OldFormat[4] == Digit && OldFormat[5] == Digit && OldFormat[6] == Digit && OldFormat[7] == Digit;
  }

  /** The Mercosul regular expression accepts exactly the Mercosul plates. */
  lemma MercosulPattern(u: string)
    ensures Matches(NewFormat, u) <==> IsMercosulPlate(u)
  {
    assert NewFormat[0] == Letter && NewFormat[1] == Letter && NewFormat[2] == Letter && NewFormat[3] == Digit;
    assert NewFormat[4] == Letter && NewFormat[5] == Digit && NewFormat[6] == Digit;
  }

  /** Validation ignores case: a plate and its upper-case form are accepted together. */
  lemma ValidateIgnoresCase(plate: string)
    ensures ValidateLicensePlate(ToUpperCase(plate)) == ValidateLicensePlate(plate)
  {
    UpperCaseIdempotent(plate);
  }

  /** An ASCII letter of either case. */
  predicate IsLetter(c: char) { IsUpperLetter(c) || IsLowerLetter(c) }

  /**
   * Which plates are accepted, read off the raw text: three letters of either
   * case, then a hyphen and four digits, or a digit, a letter and two digits.
   */
  lemma ValidateRawShape(plate: string)
    ensures ValidateLicensePlate(plate) <==>
      (|plate| == 8 && IsLetter(plate[0]) && IsLetter(plate[1]) && IsLetter(plate[2]) && plate[3] == '-'
        && IsDigit(plate[4]) && IsDigit(plate[5]) && IsDigit(plate[6]) && IsDigit(plate[7]))
      || (|plate| == 7 && IsLetter(plate[0]) && IsLetter(plate[1]) && IsLetter(plate[2])
        && IsDigit(plate[3]) && IsLetter(plate[4]) && IsDigit(plate[5]) && IsDigit(plate[6]))
  {
    var u := ToUpperCase(plate);
    if |plate| == 7 || |plate| == 8 {
      assert u[0] == UpperChar(plate[0]) && u[1] == UpperChar(plate[1]) && u[2] == UpperChar(plate[2]);
      assert u[3] == UpperChar(plate[3]) && u[4] == UpperChar(plate[4]) && u[5] == UpperChar(plate[5]);
      assert u[6] == UpperChar(plate[6]);
      if |plate| == 8 {
        assert u[7] == UpperChar(plate[7]);
      }
    }
  }

  /** An accepted plate starts with a letter, so it is never blank. */
  lemma ValidPlateNotBlank(plate: string)
    requires ValidateLicensePlate(plate)
    ensures !AllWhiteSpace(plate)
  {
    ValidateRawShape(plate);
  }

  /** A lower-case legacy plate is accepted. */
  lemma ValidateLowerLegacy()
    ensures ValidateLicensePlate("abc-1234")
  {
    var s := "abc-1234";
    assert IsLetter(s[0]) && IsLetter(s[1]) && IsLetter(s[2]) && s[3] == '-';
    assert IsDigit(s[4]) && IsDigit(s[5]) && IsDigit(s[6]) && IsDigit(s[7]);
    ValidateRawShape(s);
  }

  /** A Mercosul plate is accepted. */
  lemma ValidateMercosul()
    ensures ValidateLicensePlate("ABC1D23")
  {
    var s := "ABC1D23";
    assert IsLetter(s[0]) && IsLetter(s[1]) && IsLetter(s[2]) && IsDigit(s[3]);
    assert IsLetter(s[4]) && IsDigit(s[5]) && IsDigit(s[6]);
    ValidateRawShape(s);
  }

  /** Two letters before the hyphen, or four letters, are refused. */
  lemma ValidateRejects()
    ensures !ValidateLicensePlate("AB-1234")
    ensures !ValidateLicensePlate("ABCD1234")
  {
    assert !IsLetter("AB-1234"[2]);
    ValidateRawShape("AB-1234");
    assert "ABCD1234"[3] != '-';
    ValidateRawShape("ABCD1234");
  }

  // ---------------------------------------------------------------- formatting

  predicate IsPlateChar(c: char) { IsUpperLetter(c) || IsDigit(c) }

  /** `value.replace(/[^A-Z0-9]/g, '')`: keeps only capital ASCII letters and digits, in order. */
  function RemoveNonPlateChars(s: string): (r: string)
    ensures |r| <= |s|
    ensures forall i :: 0 <= i < |r| ==> IsPlateChar(r[i])
  {
    if s == [] then []
    else (if IsPlateChar(s[0]) then [s[0]] else []) + RemoveNonPlateChars(s[1..])
  }

  lemma {:induction false} RemoveNonPlateCharsAppend(a: string, b: string)
    ensures RemoveNonPlateChars(a + b) == RemoveNonPlateChars(a) + RemoveNonPlateChars(b)
  {
    if a == [] {
      assert a + b == b;
    } else {
      assert (a + b)[1..] == a[1..] + b;
      RemoveNonPlateCharsAppend(a[1..], b);
    }
  }

  /** A string of plate characters passes the filter untouched. */
  lemma {:induction false} RemoveNonPlateCharsKeeps(s: string)
    requires forall i :: 0 <= i < |s| ==> IsPlateChar(s[i])
    ensures RemoveNonPlateChars(s) == s
  {
    if s != [] {
      RemoveNonPlateCharsKeeps(s[1..]);
    }
  }

  /** The `cleaned` value of the formatter: the filter first, then `toUpperCase`. */
  function Cleaned(value: string): string {
    ToUpperCase(RemoveNonPlateChars(value))
  }

  /**
   * Because the filter runs before `toUpperCase`, the upper-casing changes
   * nothing: a lower-case letter is removed, never capitalised.
   */
  lemma CleanedIsFilter(value: string)
    ensures Cleaned(value) == RemoveNonPlateChars(value)
    ensures forall i :: 0 <= i < |value| && IsLowerLetter(value[i]) ==> value[i] !in Cleaned(value)
  {
    UpperCaseNoLower(RemoveNonPlateChars(value));
  }

  /**
   * `formatLicensePlate`: up to three cleaned characters are shown as they are;
   * four to seven likewise, except that exactly three letters and four digits
   * get a hyphen after the letters; longer input is cut to seven characters.
   */
  function FormatLicensePlate(value: string): (r: string)
    ensures |r| <= 8
  {
    var cleaned := Cleaned(value);
    if |cleaned| <= 3 then cleaned
    else if |cleaned| <= 7 then
      if |cleaned| == 7 && Matches(OldFormatCompact, cleaned) then cleaned[..3] + "-" + cleaned[3..]
      else cleaned
    else cleaned[..7]
  }

  function Min(a: int, b: int): int { if a <= b then a else b }

  /**
   * What the formatter produces: capital letters and digits, with at most one
   * hyphen, at index 3, present exactly when the cleaned input is a hyphenless
   * legacy plate; without the hyphen it is the first seven cleaned characters.
   */
  lemma FormatShape(value: string)
    ensures var r := FormatLicensePlate(value);
      forall i :: 0 <= i < |r| ==> IsPlateChar(r[i]) || (i == 3 && r[i] == '-')
    ensures '-' in FormatLicensePlate(value) <==> Matches(OldFormatCompact, Cleaned(value))
    ensures RemoveNonPlateChars(FormatLicensePlate(value)) == Cleaned(value)[..Min(|Cleaned(value)|, 7)]
  {
    var c := Cleaned(value);
    var r := FormatLicensePlate(value);
    CleanedIsFilter(value);
    if |c| == 7 && Matches(OldFormatCompact, c) {
      assert r == c[..3] + "-" + c[3..];
      assert r[3] == '-';
      HyphenatedFilter(c);
    } else {
      assert r == c[..Min(|c|, 7)];
      RemoveNonPlateCharsKeeps(r);
    }
  }

  /** Filtering a seven-character plate with a hyphen put after its third character gives the plate back. */
  lemma HyphenatedFilter(c: string)
    requires |c| == 7 && forall i :: 0 <= i < |c| ==> IsPlateChar(c[i])
    ensures RemoveNonPlateChars(c[..3] + "-" + c[3..]) == c
  {
    RemoveNonPlateCharsAppend(c[..3] + "-", c[3..]);
    RemoveNonPlateCharsAppend(c[..3], "-");
    RemoveNonPlateCharsKeeps(c[..3]);
    RemoveNonPlateCharsKeeps(c[3..]);
    assert RemoveNonPlateChars("-") == [] by {
      assert "-"[1..] == [];
    }
    assert c[..3] + [] + c[3..] == c;
  }

  /** Input that cleans to more than seven characters is cut to seven and never gets a hyphen. */
  lemma FormatTruncates(value: string)
    requires |Cleaned(value)| > 7
    ensures FormatLicensePlate(value) == Cleaned(value)[..7]
    ensures '-' !in FormatLicensePlate(value)
  {
    FormatShape(value);
  }

  /** Formatting what the formatter showed changes nothing, as long as the input cleaned to at most seven characters. */
  lemma FormatIdempotent(value: string)
    requires |Cleaned(value)| <= 7
    ensures FormatLicensePlate(FormatLicensePlate(value)) == FormatLicensePlate(value)
  {
    var r := FormatLicensePlate(value);
    FormatShape(value);
    CleanedIsFilter(r);
    assert Cleaned(value)[..|Cleaned(value)|] == Cleaned(value);
    assert Cleaned(r) == Cleaned(value);
  }

  /**
   * The truncating branch is the exception to idempotence: when the first
   * seven cleaned characters are three letters and four digits, the cut text
   * is shown without a hyphen and the next keystroke reformats it with one.
   */
  lemma FormatTruncationNotIdempotent(value: string)
    requires |Cleaned(value)| > 7 && Matches(OldFormatCompact, Cleaned(value)[..7])
    ensures FormatLicensePlate(value) == Cleaned(value)[..7]
    ensures FormatLicensePlate(FormatLicensePlate(value)) == Cleaned(value)[..3] + "-" + Cleaned(value)[3..7]
    ensures FormatLicensePlate(FormatLicensePlate(value)) != FormatLicensePlate(value)
  {
    var c := Cleaned(value);
    var r := FormatLicensePlate(value);
    FormatTruncates(value);
    CleanedIsFilter(value);
    FormatKeepsPlateChars(r);
    FormatLegacyIsValid(r);
    assert r[..3] == c[..3] && r[3..] == c[3..7];
    assert FormatLicensePlate(r)[3] == '-';
  }

  lemma FormatKeepsPlateChars(s: string)
    requires forall i :: 0 <= i < |s| ==> IsPlateChar(s[i])
    ensures Cleaned(s) == s
  {
    RemoveNonPlateCharsKeeps(s);
    CleanedIsFilter(s);
  }

  /** A hyphenless legacy plate is shown with its hyphen, and that is a plate the validator accepts. */
  lemma FormatLegacyIsValid(value: string)
    requires Matches(OldFormatCompact, Cleaned(value))
    ensures FormatLicensePlate(value) == Cleaned(value)[..3] + "-" + Cleaned(value)[3..]
    ensures ValidateLicensePlate(FormatLicensePlate(value))
  {
    var r := FormatLicensePlate(value);
    UpperCaseNoLower(r);
    assert IsLegacyPlate(r);
  }

  /** A Mercosul plate, however it was typed in upper case, is shown as it is and accepted. */
  lemma FormatMercosulIsValid(value: string)
    requires Matches(NewFormat, Cleaned(value))
    ensures FormatLicensePlate(value) == Cleaned(value)
    ensures ValidateLicensePlate(FormatLicensePlate(value))
  {
    var r := FormatLicensePlate(value);
    assert !Matches(OldFormatCompact, Cleaned(value)) by {
      assert !IsDigit(Cleaned(value)[4]);
    }
    UpperCaseNoLower(r);
    assert IsMercosulPlate(r);
  }

  /** Text without a single capital letter or digit is filtered away entirely. */
  lemma {:induction false} RemoveNonPlateCharsDrops(s: string)
    requires forall i :: 0 <= i < |s| ==> !IsPlateChar(s[i])
    ensures RemoveNonPlateChars(s) == []
  {
    if s != [] {
      RemoveNonPlateCharsDrops(s[1..]);
    }
  }

  /** Lower-case letters are dropped, not capitalised: typed before the rest, they leave no trace. */
  lemma FormatDropsLowerCase(lower: string, rest: string)
    requires forall i :: 0 <= i < |lower| ==> IsLowerLetter(lower[i])
    ensures FormatLicensePlate(lower + rest) == FormatLicensePlate(rest)
  {
    RemoveNonPlateCharsAppend(lower, rest);
    RemoveNonPlateCharsDrops(lower);
    assert [] + RemoveNonPlateChars(rest) == RemoveNonPlateChars(rest);
  }

  // ---------------------------------------------------------------- submission

  const PlateRequiredMessage := "Placa é obrigatória"
  const PlateFormatMessage := "Formato inválido (ex: ABC-1234 ou ABC1D23)"
  const FuelRequiredMessage := "Nível de combustível é obrigatório"
  const FuelRangeMessage := "Deve estar entre 0 e 100%"

  /** The form's `errors` object: at most one message per field. */
  datatype FormErrors = FormErrors(licensePlate: Option<string>, fuelLevel: Option<string>)
  {
    /** `Object.keys(errors).length === 0` */
    predicate IsEmpty() {
      licensePlate.None? && fuelLevel.None?
    }
  }

  /** The plate field's error: required when blank, otherwise a format error when the validator refuses it. */
  function LicensePlateError(plate: string): (e: Option<string>)
    ensures e == Some(PlateRequiredMessage) <==> AllWhiteSpace(plate)
    ensures e == Some(PlateFormatMessage) <==> !AllWhiteSpace(plate) && !ValidateLicensePlate(plate)
    ensures e == None <==> ValidateLicensePlate(plate)
  {
    if ValidateLicensePlate(plate) then ValidPlateNotBlank(plate); None
    else if Trim(plate) == [] then Some(PlateRequiredMessage)
    else Some(PlateFormatMessage)
  }

  /** The fuel number lies in [0, 100]: not NaN, not below 0, not above 100. */
  predicate InFuelRange(n: JsNumber) {
    !(n.NaN? || n.LessThan(0.0) || n.GreaterThan(100.0))
  }

  lemma InFuelRangeIff(n: JsNumber)
    ensures InFuelRange(n) <==> n.Finite? && 0.0 <= n.value <= 100.0
  {
  }

  /** The fuel field's error: required when blank, otherwise a range error unless it parses to a number in [0, 100]. */
  function FuelLevelError(fuel: string): (e: Option<string>)
    ensures e == Some(FuelRequiredMessage) <==> AllWhiteSpace(fuel)
    ensures e == Some(FuelRangeMessage) <==> !AllWhiteSpace(fuel) && !InFuelRange(ParseFloat(fuel))
    ensures e == None <==> ParseFloat(fuel).Finite? && 0.0 <= ParseFloat(fuel).value <= 100.0
  {
    InFuelRangeIff(ParseFloat(fuel));
    if Trim(fuel) == [] then ParseFloatBlank(fuel); Some(FuelRequiredMessage)
    else if !InFuelRange(ParseFloat(fuel)) then Some(FuelRangeMessage)
    else None
  }

  /** A lower-case legacy plate raises no plate error. */
  lemma PlateErrorExample()
    ensures LicensePlateError("abc-1234") == None
  {
    ValidateLowerLegacy();
  }

  /** A whole number typed as digits is accepted exactly when it is at most 100, and is out of range otherwise. */
  lemma FuelDigitsError(d: string)
    requires d != [] && AllDigits(d)
    ensures FuelLevelError(d) == if DigitsValue(d) <= 100 then None else Some(FuelRangeMessage)
  {
    ParseFloatDigits(d);
    assert !IsWhiteSpace(d[0]);
  }

  /** An empty fuel field is reported as required. */
  lemma FuelErrorRequired()
    ensures FuelLevelError("") == Some(FuelRequiredMessage)
  {
  }

  /** What an accepted submission carries: an upper-case plate the validator accepts and a fuel level in [0, 100]. */
  predicate IsAcceptedData(d: VehicleData) {
    ValidateLicensePlate(d.licensePlate) && ToUpperCase(d.licensePlate) == d.licensePlate
    && 0.0 <= d.fuelLevel <= 100.0
  }

  /**
   * The two fields raise no error exactly when the plate is accepted and the
   * fuel text parses to a number in [0, 100]; the record then handed on, the
   * upper-cased plate and that number, is an accepted record.
   */
  lemma SubmissionAccepted(plate: string, fuel: string)
    ensures FormErrors(LicensePlateError(plate), FuelLevelError(fuel)).IsEmpty() <==>
      ValidateLicensePlate(plate) && InFuelRange(ParseFloat(fuel))
    ensures FormErrors(LicensePlateError(plate), FuelLevelError(fuel)).IsEmpty() ==>
      ParseFloat(fuel).Finite? && IsAcceptedData(VehicleData(ToUpperCase(plate), ParseFloat(fuel).value))
  {
    InFuelRangeIff(ParseFloat(fuel));
    if LicensePlateError(plate).None? {
      ValidateIgnoresCase(plate);
      UpperCaseIdempotent(plate);
    }
  }

  /** The plate half of the submit handler: blank first, then the format. */
  method CheckLicensePlate(plate: string) returns (error: Option<string>)
    ensures error == LicensePlateError(plate)
  {
    error := None;
    if Trim(plate) == [] {
      error := Some(PlateRequiredMessage);
    } else if !ValidateLicensePlate(plate) {
      error := Some(PlateFormatMessage);
    }
    if ValidateLicensePlate(plate) {
      ValidPlateNotBlank(plate);
    }
  }

  /** The fuel half of the submit handler: parse, then blank first, then the range. */
  method CheckFuelLevel(fuel: string) returns (fuelNumber: JsNumber, error: Option<string>)
    ensures fuelNumber == ParseFloat(fuel)
    ensures error == FuelLevelError(fuel)
    ensures error.None? ==> fuelNumber.Finite? && 0.0 <= fuelNumber.value <= 100.0
  {
    fuelNumber := ParseFloat(fuel);
    error := None;
    if Trim(fuel) == [] {
      error := Some(FuelRequiredMessage);
    } else if fuelNumber.NaN? || fuelNumber.LessThan(0.0) || fuelNumber.GreaterThan(100.0) {
      error := Some(FuelRangeMessage);
    }
  }

  /** The form's state: the two text fields and the errors shown under them. */
  class VehicleForm {
    var licensePlate: string
    var fuelLevel: string
    var errors: FormErrors

    constructor ()
      ensures licensePlate == "" && fuelLevel == "" && errors == FormErrors(None, None)
    {
      licensePlate := "";
      fuelLevel := "";
      errors := FormErrors(None, None);
    }

    /** `handleLicensePlateChange`: the plate field shows the formatted keystrokes. */
    method HandleLicensePlateChange(value: string)
      modifies this
      ensures licensePlate == FormatLicensePlate(value)
      ensures fuelLevel == old(fuelLevel) && errors == old(errors)
    {
      licensePlate := FormatLicensePlate(value);
    }

    /** The fuel field's change handler stores the text as typed. */
    method HandleFuelLevelChange(value: string)
      modifies this
      ensures fuelLevel == value
      ensures licensePlate == old(licensePlate) && errors == old(errors)
    {
      fuelLevel := value;
    }

    /**
     * `handleSubmit`: collect the errors field by field and show them; with no
     * error, hand on the upper-cased plate and the parsed fuel level and clear
     * both fields; with an error, keep them.
     */
    method HandleSubmit() returns (submitted: Option<VehicleData>)
      modifies this
      ensures errors == FormErrors(LicensePlateError(old(licensePlate)), FuelLevelError(old(fuelLevel)))
      ensures submitted.Some? <==> errors.IsEmpty()
      ensures submitted.Some? ==>
        submitted.value.licensePlate == ToUpperCase(old(licensePlate))
        && ParseFloat(old(fuelLevel)) == Finite(submitted.value.fuelLevel)
        && IsAcceptedData(submitted.value)
      ensures submitted.Some? ==> licensePlate == "" && fuelLevel == ""
      ensures submitted.None? ==> licensePlate == old(licensePlate) && fuelLevel == old(fuelLevel)
    {
      var plate, fuel := licensePlate, fuelLevel;
      var plateError := CheckLicensePlate(plate);
      var fuelNumber, fuelError := CheckFuelLevel(fuel);
      errors := FormErrors(plateError, fuelError);

      if errors.IsEmpty() {
        SubmissionAccepted(plate, fuel);
        submitted := Some(VehicleData(ToUpperCase(plate), fuelNumber.value));
        licensePlate := "";
        fuelLevel := "";
      } else {
        submitted := None;
      }
    }
  }
}
