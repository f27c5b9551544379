/** The benefit types, their parameter bounds, and the validator that checks a
    benefit's value and duration against them. */
module BenefitTypes {
  import opened Wrappers
  import opened Js

  const MERCHANT_ALLOWANCE: int := 0
  const YACHT_EVENT: int := 1
  const DISCOUNT: int := 2

  /** The keys of `BenefitType`, in declaration order. */
  const BENEFIT_TYPE_NAMES: seq<string> := ["MERCHANT_ALLOWANCE", "YACHT_EVENT", "DISCOUNT"]

  datatype BenefitConfig = BenefitConfig(
    minValue: int, maxValue: int, minDuration: int, maxDuration: int,
    isPartialRedeemable: bool, requiresMerchant: bool)

  /** `BenefitConfig[key]`: the table is keyed by the numerals of the types. */
  function ConfigFor(key: string): Option<BenefitConfig> {
    if key == "0" then Some(BenefitConfig(1, 10000, 1, 365, true, true))
    else if key == "1" then Some(BenefitConfig(1, 10, 1, 180, false, false))
    else if key == "2" then Some(BenefitConfig(1, 100, 1, 365, false, true))
    else None
  }

  /** `Object.keys(BenefitType)[type]` */
  function TypeName(key: string): Json {
    if key == "0" then Str(BENEFIT_TYPE_NAMES[0])
    else if key == "1" then Str(BENEFIT_TYPE_NAMES[1])
    else if key == "2" then Str(BENEFIT_TYPE_NAMES[2])
    else Undefined
  }

  /** `v < min || v > max`, with JavaScript's comparisons. */
  predicate OutOfRange(v: Json, min: int, max: int) {
    LessThan(v, min) || GreaterThan(v, max)
  }

  /** The message of a value outside the type's bounds. */
  function ValueError(c: BenefitConfig, key: string): string {
    "Value must be between " + IntToString(c.minValue) + " and " + IntToString(c.maxValue)
    + " for " + Show(TypeName(key))
  }

  /** The message of a duration outside the type's bounds. */
  function DurationError(c: BenefitConfig, key: string): string {
    "Duration must be between " + IntToString(c.minDuration) + " and " + IntToString(c.maxDuration)
    + " days for " + Show(TypeName(key))
  }

  /** `validateBenefitParams(type, value, duration)`: true, or the message of
      the error it throws. */
  function ValidateBenefitParams(benefitType: Json, value: Json, duration: Json): (r: Result<bool, string>)
    ensures r.Ok? ==> r.value
    ensures ConfigFor(Show(benefitType)).None? ==> r == Err("Invalid benefit type: " + Show(benefitType))
  {
    var key := Show(benefitType);
    match ConfigFor(key)
    case None => Err("Invalid benefit type: " + key)
    case Some(c) =>
      if OutOfRange(value, c.minValue, c.maxValue) then
        Err(ValueError(c, key))
      else if OutOfRange(duration, c.minDuration, c.maxDuration) then
        Err(DurationError(c, key))
      else Ok(true)
  }

  /** The numbers 0, 1 and 2, and no other number, name a benefit type. */
  lemma KnownTypes(t: int)
    ensures ConfigFor(Show(Num(t))).Some? <==> t == MERCHANT_ALLOWANCE || t == YACHT_EVENT || t == DISCOUNT
  {
    IntToStringInjective(t, 0);
    IntToStringInjective(t, 1);
    IntToStringInjective(t, 2);
    assert IntToString(0) == "0" && IntToString(1) == "1" && IntToString(2) == "2";
  }

  /** For numbers, validation succeeds exactly when both the value and the
      duration lie within the type's inclusive bounds. */
  lemma ValidateNumbers(t: int, value: int, duration: int)
    requires t == MERCHANT_ALLOWANCE || t == YACHT_EVENT || t == DISCOUNT
    ensures var c := ConfigFor(Show(Num(t))).value;
      ValidateBenefitParams(Num(t), Num(value), Num(duration)).Ok?
      <==> c.minValue <= value <= c.maxValue && c.minDuration <= duration <= c.maxDuration
  {
    KnownTypes(t);
  }

  /** The value is checked first: when both are out of range, the value's
      error is the one reported. */
  lemma ValueCheckedFirst(t: int, value: int, duration: int)
    requires t == MERCHANT_ALLOWANCE || t == YACHT_EVENT || t == DISCOUNT
    requires var c := ConfigFor(Show(Num(t))).value;
      !(c.minValue <= value <= c.maxValue) && !(c.minDuration <= duration <= c.maxDuration)
    ensures var r := ValidateBenefitParams(Num(t), Num(value), Num(duration));
      r.Err? && |r.error| >= 5 && r.error[..5] == "Value"
  {
    KnownTypes(t);
    ValueFirstWithConfig(Num(t), ConfigFor(Show(Num(t))).value, value, duration);
  }

  /** An out-of-range number value is reported under a known type's bounds. */
  lemma ValueFirstWithConfig(benefitType: Json, c: BenefitConfig, value: int, duration: int)
    requires ConfigFor(Show(benefitType)) == Some(c) && !(c.minValue <= value <= c.maxValue)
    ensures var r := ValidateBenefitParams(benefitType, Num(value), Num(duration));
      r.Err? && |r.error| >= 5 && r.error[..5] == "Value"
  {
    NumberOutOfRange(value, c.minValue, c.maxValue);
    ValueRejected(benefitType, c, Num(value), Num(duration));
    ValueErrorWord(c, Show(benefitType));
  }

  /** A number outside the bounds is out of range. */
  lemma NumberOutOfRange(v: int, min: int, max: int)
    requires !(min <= v <= max)
    ensures OutOfRange(Num(v), min, max)
  {
  }

  /** Under a known type's bounds, a value out of range is reported. */
  lemma ValueRejected(benefitType: Json, c: BenefitConfig, value: Json, duration: Json)
    requires ConfigFor(Show(benefitType)) == Some(c) && OutOfRange(value, c.minValue, c.maxValue)
    ensures ValidateBenefitParams(benefitType, value, duration) == Err(ValueError(c, Show(benefitType)))
  {
  }

  /** A value error starts with "Value". */
  lemma ValueErrorWord(c: BenefitConfig, key: string)
    ensures |ValueError(c, key)| >= 5 && ValueError(c, key)[..5] == "Value"
  {
    var m1 := "Value must be between " + IntToString(c.minValue);
    var m2 := m1 + " and ";
    var m3 := m2 + IntToString(c.maxValue);
    var m4 := m3 + " for ";
    PrefixKept("Value must be between ", IntToString(c.minValue));
    PrefixKept(m1, " and ");
    PrefixKept(m2, IntToString(c.maxValue));
    PrefixKept(m3, " for ");
    PrefixKept(m4, Show(TypeName(key)));
  }

  /** Appending keeps the first five characters. */
  lemma PrefixKept(p: string, q: string)
    requires |p| >= 5
    ensures |p + q| >= 5 && (p + q)[..5] == p[..5]
  {
  }

  /** A value or duration that is not a number (NaN, undefined, a
      non-numeric string) compares false against both bounds and is accepted. */
  lemma NaNPassesValidation(t: int, value: Json, duration: Json)
    requires t == MERCHANT_ALLOWANCE || t == YACHT_EVENT || t == DISCOUNT
    requires ToNumber(value).NaN? && ToNumber(duration).NaN?
    ensures ValidateBenefitParams(Num(t), value, duration) == Ok(true)
  {
    KnownTypes(t);
    var c := ConfigFor(Show(Num(t))).value;
    NaNIsNotOut(value, c.minValue, c.maxValue);
    NaNIsNotOut(duration, c.minDuration, c.maxDuration);
    AcceptedWithConfig(Num(t), c, value, duration);
  }

  /** A value that is not a number is never out of range. */
  lemma NaNIsNotOut(v: Json, min: int, max: int)
    requires ToNumber(v).NaN?
    ensures !OutOfRange(v, min, max)
  {
  }

  /** Under a known type's bounds, a value and a duration that are not out of
      range are accepted. */
  lemma AcceptedWithConfig(benefitType: Json, c: BenefitConfig, value: Json, duration: Json)
    requires ConfigFor(Show(benefitType)) == Some(c)
    requires !OutOfRange(value, c.minValue, c.maxValue) && !OutOfRange(duration, c.minDuration, c.maxDuration)
    ensures ValidateBenefitParams(benefitType, value, duration) == Ok(true)
  {
  }

  /** The evidently intended validator: the value and duration must be numbers
      within the bounds. */
  function ValidateBenefitParamsStrict(benefitType: Json, value: Json, duration: Json): (r: Result<bool, string>)
    ensures r.Ok? ==> r.value
  {
    var key := Show(benefitType);
    match ConfigFor(key)
    case None => Err("Invalid benefit type: " + key)
    case Some(c) =>
      if !InRange(value, c.minValue, c.maxValue) then
        Err(ValueError(c, key))
      else if !InRange(duration, c.minDuration, c.maxDuration) then
        Err(DurationError(c, key))
      else Ok(true)
  }

  predicate InRange(v: Json, min: int, max: int) {
    ToNumber(v).Num? && min <= ToNumber(v).n <= max
  }

  /** The strict validator accepts exactly the values and durations that
      convert to numbers within the bounds, and agrees with the original
      on every such input. */
  lemma StrictAcceptsExactlyInRange(t: int, value: Json, duration: Json)
    requires t == MERCHANT_ALLOWANCE || t == YACHT_EVENT || t == DISCOUNT
    ensures var c := ConfigFor(Show(Num(t))).value;
      ValidateBenefitParamsStrict(Num(t), value, duration).Ok?
      <==> InRange(value, c.minValue, c.maxValue) && InRange(duration, c.minDuration, c.maxDuration)
    ensures var c := ConfigFor(Show(Num(t))).value;
      InRange(value, c.minValue, c.maxValue) && InRange(duration, c.minDuration, c.maxDuration)
      ==> ValidateBenefitParams(Num(t), value, duration) == Ok(true)
  {
    KnownTypes(t);
    StrictWithConfig(Num(t), ConfigFor(Show(Num(t))).value, value, duration);
  }

  /** The two validators under a known type's bounds. */
  lemma StrictWithConfig(benefitType: Json, c: BenefitConfig, value: Json, duration: Json)
    requires ConfigFor(Show(benefitType)) == Some(c)
    ensures ValidateBenefitParamsStrict(benefitType, value, duration).Ok?
      <==> InRange(value, c.minValue, c.maxValue) && InRange(duration, c.minDuration, c.maxDuration)
    ensures InRange(value, c.minValue, c.maxValue) && InRange(duration, c.minDuration, c.maxDuration)
      ==> ValidateBenefitParams(benefitType, value, duration) == Ok(true)
  {
    if InRange(value, c.minValue, c.maxValue) && InRange(duration, c.minDuration, c.maxDuration) {
      InRangeIsNotOut(value, c.minValue, c.maxValue);
      InRangeIsNotOut(duration, c.minDuration, c.maxDuration);
      AcceptedWithConfig(benefitType, c, value, duration);
    }
  }

  /** A number within the bounds is not out of range. */
  lemma InRangeIsNotOut(v: Json, min: int, max: int)
    requires InRange(v, min, max)
    ensures !OutOfRange(v, min, max)
  {
  }
}
