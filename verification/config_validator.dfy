/**
 * The configuration validators: structural checks on metadata, template
 * configurations and event configurations. Each returns true or throws
 * the first problem it meets; here a throw is an `Err` carrying the
 * message and `Ok(true)` is the normal return.
 */
module ConfigValidator {
  import opened Wrappers
  import opened Js

  const DESCRIPTIVE := ["name", "description", "image"]
  const REQUIRED_PROPERTIES := ["tier", "benefits", "baseBalance", "price", "discount", "isVIP"]
  const TEMPLATE_FIELDS := ["id", "name", "baseBalance", "price", "discount", "isVIP"]
  const TEMPLATE_NUMBERS := ["id", "discount"]
  const TEMPLATE_STRINGS := ["name", "baseBalance", "price"]
  const DESIGN_FIELDS := ["image", "backgroundColor", "foregroundColor", "labelColor", "primaryColor", "textColor"]
  const EVENT_FIELDS := ["name", "price", "capacity", "eventType"]

  /** `!v || typeof v !== 'object'` fails: arrays count as objects. */
  predicate IsObject(v: Json) {
    Truthy(v) && TypeOf(v) == ObjectType
  }

  /** `!v || typeof v !== 'string'` fails: a non-empty string. */
  predicate NonEmptyString(v: Json) {
    Truthy(v) && TypeOf(v) == StringType
  }

  /** The per-field test of a validator loop. */
  datatype Test = IsUndefined | NotNumber | NotString | NotNonEmptyString

  /** The field value fails the test. */
  predicate Bad(bad: Test, v: Json) {
    match bad
    case IsUndefined => v.Undefined?
    case NotNumber => TypeOf(v) != NumberType
    case NotString => TypeOf(v) != StringType
    case NotNonEmptyString => !NonEmptyString(v)
  }

  /** The first of `fields` whose value in `v` fails the test: the loop of
      a validator, which throws for that field. */
  function FirstBad(v: Json, fields: seq<string>, bad: Test): (r: Option<string>)
    ensures r.Some? ==> r.value in fields && Bad(bad, Get(v, r.value))
  {
    if |fields| == 0 then None
    else if Bad(bad, Get(v, fields[0])) then Some(fields[0])
    else FirstBad(v, fields[1..], bad)
  }

  lemma {:induction false} FirstBadNone(v: Json, fields: seq<string>, bad: Test)
    ensures FirstBad(v, fields, bad).None? <==> forall f | f in fields :: !Bad(bad, Get(v, f))
  {
    if |fields| > 0 {
      FirstBadNone(v, fields[1..], bad);
      assert forall f | f in fields :: f == fields[0] || f in fields[1..];
    }
  }

  /** The reported field is the first bad one: every field before it passes. */
  lemma {:induction false} FirstBadIsFirst(v: Json, fields: seq<string>, bad: Test)
    requires FirstBad(v, fields, bad).Some?
    ensures exists i | 0 <= i < |fields| ::
      (fields[i] == FirstBad(v, fields, bad).value && forall j | 0 <= j < i :: !Bad(bad, Get(v, fields[j])))
  {
    if !Bad(bad, Get(v, fields[0])) {
      FirstBadIsFirst(v, fields[1..], bad);
      var i :| 0 <= i < |fields[1..]| && fields[1..][i] == FirstBad(v, fields, bad).value &&
        forall j | 0 <= j < i :: !Bad(bad, Get(v, fields[1..][j]));
      assert fields[i + 1] == FirstBad(v, fields, bad).value;
    } else {
      assert fields[0] == FirstBad(v, fields, bad).value;
    }
  }

  // -------------------------------------------------------- validateMetadata

  /** The attribute loop: an undefined or null entry throws on reading its
      trait type; an entry without a truthy trait type and value fails. */
  function AttributeCheck(items: seq<Json>): Result<bool, string> {
    if |items| == 0 then Ok(true)
    else if Nullish(items[0]) then Err(ReadError(items[0], "trait_type"))
    else if !Truthy(Get(items[0], "trait_type")) || !Truthy(Get(items[0], "value")) then
      Err("Each attribute must have trait_type and value")
    else AttributeCheck(items[1..])
  }

  predicate CompleteAttribute(a: Json) {
    !Nullish(a) && Truthy(Get(a, "trait_type")) && Truthy(Get(a, "value"))
  }

  lemma {:induction false} AttributeCheckOk(items: seq<Json>)
    ensures AttributeCheck(items).Ok? <==> forall a | a in items :: CompleteAttribute(a)
  {
    if |items| > 0 {
      AttributeCheckOk(items[1..]);
      assert items[0] in items;
      assert forall a | a in items :: a == items[0] || a in items[1..];
    }
  }

  /** The properties check, reached only when `properties` is truthy. */
  function PropertiesCheck(props: Json): Result<bool, string> {
    if TypeOf(props) != ObjectType then Err("Properties must be an object")
    else
      var missing := FirstBad(props, REQUIRED_PROPERTIES, IsUndefined);
      if missing.Some? then Err("Missing required property: " + missing.value)
      else if !Get(props, "benefits").Arr? then Err("Benefits must be an array")
      else Ok(true)
  }

  /** `validateMetadata(metadata)` */
  function ValidateMetadata(md: Json): (r: Result<bool, string>)
    ensures r.Ok? ==> r.value
  {
    if !IsObject(md) then Err("Invalid metadata object")
    else
      var bad := FirstBad(md, DESCRIPTIVE, NotNonEmptyString);
      if bad.Some? then Err("Missing or invalid " + bad.value + " field")
      else if !Get(md, "attributes").Arr? then Err("Attributes must be an array")
      else
        var attrs := AttributeCheck(Get(md, "attributes").items);
        if attrs.Err? then attrs
        else if Truthy(Get(md, "properties")) then PropertiesCheck(Get(md, "properties"))
        else Ok(true)
  }

  /** Accepted properties: an object (arrays included) defining the six
      required properties, with an array of benefits. */
  predicate GoodProperties(props: Json) {
    TypeOf(props) == ObjectType &&
    (forall p | p in REQUIRED_PROPERTIES :: !Get(props, p).Undefined?) &&
    Get(props, "benefits").Arr?
  }

  lemma PropertiesCheckOk(props: Json)
    ensures PropertiesCheck(props).Ok? <==> GoodProperties(props)
  {
    FirstBadNone(props, REQUIRED_PROPERTIES, IsUndefined);
  }

  /** Metadata passes exactly when it is an object with non-empty string
      name, description and image, an array of complete attributes, and
      either no truthy properties or good ones. */
  lemma ValidateMetadataOk(md: Json)
    ensures ValidateMetadata(md).Ok? <==>
      IsObject(md) &&
      (forall f | f in DESCRIPTIVE :: NonEmptyString(Get(md, f))) &&
      Get(md, "attributes").Arr? &&
      (forall a | a in Get(md, "attributes").items :: CompleteAttribute(a)) &&
      (Truthy(Get(md, "properties")) ==> GoodProperties(Get(md, "properties")))
  {
    FirstBadNone(md, DESCRIPTIVE, NotNonEmptyString);
    if Get(md, "attributes").Arr? {
      AttributeCheckOk(Get(md, "attributes").items);
    }
    PropertiesCheckOk(Get(md, "properties"));
  }

  // -------------------------------------------------- validateTemplateConfig

  /** `validateTemplateConfig(config)` */
  function ValidateTemplateConfig(config: Json): (r: Result<bool, string>)
    ensures r.Ok? ==> r.value
  {
    if !IsObject(config) then Err("Invalid template config object")
    else
      var missing := FirstBad(config, TEMPLATE_FIELDS, IsUndefined);
      if missing.Some? then Err("Missing required field: " + missing.value)
      else
        var notNumber := FirstBad(config, TEMPLATE_NUMBERS, NotNumber);
        if notNumber.Some? then Err(notNumber.value + " must be a number")
        else
          var notString := FirstBad(config, TEMPLATE_STRINGS, NotString);
          if notString.Some? then Err(notString.value + " must be a string")
          else if TypeOf(Get(config, "isVIP")) != BooleanType then Err("isVIP must be a boolean")
          else DesignAndBenefits(config)
  }

  /** The optional parts of a template configuration. */
  function DesignAndBenefits(config: Json): Result<bool, string> {
    var design := Get(config, "design");
    var badDesign := FirstBad(design, DESIGN_FIELDS, NotNonEmptyString);
    if Truthy(design) && badDesign.Some? then Err("Missing or invalid design field: " + badDesign.value)
    else
      var benefits := Get(config, "benefits");
      if Truthy(benefits) && !benefits.Arr? then Err("Benefits must be an array")
      else if Truthy(benefits) && exists b | b in benefits.items :: TypeOf(b) != StringType then
        Err("All benefits must be strings")
      else Ok(true)
  }

  /** The design, when present, has six non-empty string fields; the
      benefits, when present, are an array of strings. */
  lemma DesignAndBenefitsOk(config: Json)
    ensures DesignAndBenefits(config).Ok? <==>
      (Truthy(Get(config, "design")) ==> forall f | f in DESIGN_FIELDS :: NonEmptyString(Get(Get(config, "design"), f))) &&
      (Truthy(Get(config, "benefits")) ==>
        Get(config, "benefits").Arr? && forall b | b in Get(config, "benefits").items :: TypeOf(b) == StringType)
  {
    FirstBadNone(Get(config, "design"), DESIGN_FIELDS, NotNonEmptyString);
  }

  /** Typed fields of a template configuration: numeric id and discount,
      string name, balance and price, boolean isVIP. */
  predicate TypedTemplate(config: Json) {
    TypeOf(Get(config, "id")) == NumberType && TypeOf(Get(config, "discount")) == NumberType &&
    TypeOf(Get(config, "name")) == StringType && TypeOf(Get(config, "baseBalance")) == StringType &&
    TypeOf(Get(config, "price")) == StringType && TypeOf(Get(config, "isVIP")) == BooleanType
  }

  lemma DefinedFieldsOk(config: Json)
    ensures FirstBad(config, TEMPLATE_FIELDS, IsUndefined).None? <==>
      !Get(config, "id").Undefined? && !Get(config, "name").Undefined? && !Get(config, "baseBalance").Undefined? &&
      !Get(config, "price").Undefined? && !Get(config, "discount").Undefined? && !Get(config, "isVIP").Undefined?
  {
    FirstBadNone(config, TEMPLATE_FIELDS, IsUndefined);
    assert forall f | f in TEMPLATE_FIELDS ::
      (f == "id" || f == "name" || f == "baseBalance" || f == "price" || f == "discount" || f == "isVIP");
    assert "id" in TEMPLATE_FIELDS && "name" in TEMPLATE_FIELDS && "baseBalance" in TEMPLATE_FIELDS;
    assert "price" in TEMPLATE_FIELDS && "discount" in TEMPLATE_FIELDS && "isVIP" in TEMPLATE_FIELDS;
  }

  lemma TypedFieldsOk(config: Json)
    ensures (FirstBad(config, TEMPLATE_FIELDS, IsUndefined).None? &&
             FirstBad(config, TEMPLATE_NUMBERS, NotNumber).None? &&
             FirstBad(config, TEMPLATE_STRINGS, NotString).None? &&
             TypeOf(Get(config, "isVIP")) == BooleanType) <==> TypedTemplate(config)
  {
    DefinedFieldsOk(config);
    FirstBadNone(config, TEMPLATE_NUMBERS, NotNumber);
    FirstBadNone(config, TEMPLATE_STRINGS, NotString);
    assert forall f | f in TEMPLATE_NUMBERS :: f == "id" || f == "discount";
    assert forall f | f in TEMPLATE_STRINGS :: f == "name" || f == "baseBalance" || f == "price";
    assert "id" in TEMPLATE_NUMBERS && "discount" in TEMPLATE_NUMBERS;
    assert "name" in TEMPLATE_STRINGS && "baseBalance" in TEMPLATE_STRINGS && "price" in TEMPLATE_STRINGS;
  }

  /** A template configuration passes exactly when it is an object with the
      six typed fields and a good design and benefits list when present. */
  lemma ValidateTemplateConfigOk(config: Json)
    ensures ValidateTemplateConfig(config).Ok? <==>
      IsObject(config) && TypedTemplate(config) && DesignAndBenefits(config).Ok?
  {
    TypedFieldsOk(config);
  }

  /** The optional parts read only the design and the benefits. */
  lemma DesignAndBenefitsReads(c1: Json, c2: Json)
    requires Get(c1, "design") == Get(c2, "design") && Get(c1, "benefits") == Get(c2, "benefits")
    ensures DesignAndBenefits(c1) == DesignAndBenefits(c2)
  {
  }

  /** Replacing the discount leaves every other field of a configuration as it was. */
  lemma PutDiscountKeeps(config: Json, d: int)
    requires config.Obj?
    ensures var changed := Obj(Put(config.fields, "discount", Num(d)));
      Get(changed, "discount") == Num(d) &&
      Get(changed, "id") == Get(config, "id") && Get(changed, "name") == Get(config, "name") &&
      Get(changed, "baseBalance") == Get(config, "baseBalance") && Get(changed, "price") == Get(config, "price") &&
      Get(changed, "isVIP") == Get(config, "isVIP") &&
      Get(changed, "design") == Get(config, "design") && Get(changed, "benefits") == Get(config, "benefits")
  {
    var after := Put(config.fields, "discount", Num(d));
    PutOther(config.fields, "discount", after, "id");
    PutOther(config.fields, "discount", after, "name");
    PutOther(config.fields, "discount", after, "baseBalance");
    PutOther(config.fields, "discount", after, "price");
    PutOther(config.fields, "discount", after, "isVIP");
    PutOther(config.fields, "discount", after, "design");
    PutOther(config.fields, "discount", after, "benefits");
  }

  /** Every object literal is an object. */
  lemma ObjectIsObject(fields: seq<(string, Json)>)
    ensures IsObject(Obj(fields))
  {
  }

  /** The discount's type is checked, not its range: a configuration that
      passes still passes with any whole-number discount, 250 included. */
  lemma DiscountRangeUnchecked(config: Json, d: int)
    requires config.Obj? && ValidateTemplateConfig(config).Ok?
    ensures ValidateTemplateConfig(Obj(Put(config.fields, "discount", Num(d)))).Ok?
  {
    var changed := Obj(Put(config.fields, "discount", Num(d)));
    ValidateTemplateConfigOk(config);
    PutDiscountKeeps(config, d);
    ObjectIsObject(Put(config.fields, "discount", Num(d)));
    assert TypedTemplate(changed);
    DesignAndBenefitsReads(config, changed);
    ValidateTemplateConfigOk(changed);
  }

  // ----------------------------------------------------- validateEventConfig

  /** `validateEventConfig(config)` as written: `capacity <= 0` is false for
      NaN, so a NaN capacity passes. */
  function ValidateEventConfig(config: Json): (r: Result<bool, string>)
    ensures r.Ok? ==> r.value
  {
    if !IsObject(config) then Err("Invalid event config object")
    else
      var missing := FirstBad(config, EVENT_FIELDS, IsUndefined);
      if missing.Some? then Err("Missing required field: " + missing.value)
      else if !Get(config, "name").Str? then Err("Event name must be a string")
      else if TypeOf(Get(config, "capacity")) != NumberType || (Get(config, "capacity").Num? && Get(config, "capacity").n <= 0) then
        Err("Event capacity must be a positive number")
      else if TypeOf(Get(config, "eventType")) != NumberType then Err("Event type must be a number")
      else Ok(true)
  }

  /** An event configuration passes exactly when it is an object with a
      string name, a defined price, a number capacity that is not zero or
      negative, and a number type. */
  lemma ValidateEventConfigOk(config: Json)
    ensures ValidateEventConfig(config).Ok? <==>
      IsObject(config) && Get(config, "name").Str? && !Get(config, "price").Undefined? &&
      TypeOf(Get(config, "capacity")) == NumberType && !(Get(config, "capacity").Num? && Get(config, "capacity").n <= 0) &&
      TypeOf(Get(config, "eventType")) == NumberType
  {
    FirstBadNone(config, EVENT_FIELDS, IsUndefined);
  }

  /** The check lets a NaN capacity through: an object with a string name, a
      price, a NaN capacity and a number type passes. */
  lemma NaNCapacityPasses(config: Json)
    requires config.Obj? && Get(config, "name").Str? && !Get(config, "price").Undefined?
    requires Get(config, "capacity").NaN? && Get(config, "eventType").Num?
    ensures ValidateEventConfig(config).Ok?
  {
    ValidateEventConfigOk(config);
  }

  /** The check with a positive capacity demanded outright
      (`!(capacity > 0)`), which NaN fails. */
  function ValidateEventConfigStrict(config: Json): (r: Result<bool, string>)
    ensures r.Ok? ==> r.value
  {
    if !IsObject(config) then Err("Invalid event config object")
    else
      var missing := FirstBad(config, EVENT_FIELDS, IsUndefined);
      if missing.Some? then Err("Missing required field: " + missing.value)
      else if !Get(config, "name").Str? then Err("Event name must be a string")
      else if !(Get(config, "capacity").Num? && Get(config, "capacity").n > 0) then
        Err("Event capacity must be a positive number")
      else if TypeOf(Get(config, "eventType")) != NumberType then Err("Event type must be a number")
      else Ok(true)
  }

  /** The corrected check accepts only positive capacities, and differs from
      the check as written only on a NaN capacity. */
  lemma StrictCapacityPositive(config: Json)
    ensures ValidateEventConfigStrict(config).Ok? ==>
      Get(config, "capacity").Num? && Get(config, "capacity").n > 0
    ensures !Get(config, "capacity").NaN? ==> ValidateEventConfigStrict(config) == ValidateEventConfig(config)
  {
  }
}
