/**
 * The V2 metadata validator: a schema per metadata kind (NFT, TEMPLATE, EVENT),
 * a result object whose `valid` flag and `errors`/`warnings` lists the checks
 * update as they go, the IPFS URI pattern, and the batch driver that turns
 * thrown exceptions into invalid entries.
 */
module ValidateMetadata {
  import opened Wrappers
  import opened Js

  // ------------------------------------------------------------------ schemas

  datatype Schema = Schema(required: seq<string>, attributes: seq<string>, properties: seq<string>)

  /** `METADATA_SCHEMAS[key]` */
  function SchemaFor(key: string): (r: Option<Schema>)
    ensures r.Some? <==> key in {"NFT", "TEMPLATE", "EVENT"}
    ensures r.Some? ==> r.value.required == ["name", "description", "image", "attributes"]
  {
    var required := ["name", "description", "image", "attributes"];
    if key == "NFT" then
      Some(Schema(required, ["Token ID", "Template", "Balance"], ["tokenId", "templateId", "owner"]))
    else if key == "TEMPLATE" then
      Some(Schema(required, ["Template ID", "Base Balance", "Price", "Discount", "VIP"], ["templateId", "active"]))
    else if key == "EVENT" then
      Some(Schema(required, ["Event ID", "Capacity", "Price", "Type", "Status"], ["eventId", "active", "soldCount"]))
    else None
  }

  /** The object `validateMetadata` returns. */
  datatype Report = Report(valid: bool, errors: seq<string>, warnings: seq<string>)

  // ------------------------------------------------------------------ messages

  function MissingField(f: string): string { "Missing required field: " + f }
  function MissingAttribute(t: string): string { "Missing required attribute: " + t }
  function InvalidAttribute(i: nat): string {
    "Invalid attribute at index " + NatToString(i) + ": missing trait_type or value"
  }
  function MissingProperty(p: string): string { "Missing recommended property: " + p }
  function NotANumber(what: string): string { what + " must be a number" }
  const DISCOUNT_ERROR := "Discount must be a number between 0 and 100"
  const NOT_AN_ARRAY := "Attributes must be an array"

  // ------------------------------------------------------------- the checks

  /** The errors of the required-field check: one per falsy field, in schema order. */
  function FieldErrors(m: Json, fields: seq<string>): seq<string> {
    if |fields| == 0 then []
    else
      var f := fields[|fields| - 1];
      FieldErrors(m, fields[..|fields| - 1]) + (if Truthy(Get(m, f)) then [] else [MissingField(f)])
  }

  /** Exactly the falsy fields are reported, at most one error each. */
  lemma {:induction false} FieldErrorsExact(m: Json, fields: seq<string>)
    ensures |FieldErrors(m, fields)| <= |fields|
    ensures forall f | f in fields && !Truthy(Get(m, f)) :: MissingField(f) in FieldErrors(m, fields)
    ensures forall e | e in FieldErrors(m, fields) ::
      exists f | f in fields :: !Truthy(Get(m, f)) && e == MissingField(f)
  {
    if |fields| > 0 {
      var init := fields[..|fields| - 1];
      FieldErrorsExact(m, init);
      assert fields == init + [fields[|fields| - 1]];
    }
  }

  /** `attributes.map(attr => attr.trait_type)`: throws at the first undefined or null entry. */
  function TraitTypes(attrs: seq<Json>): (r: Result<seq<Json>, string>) {
    if |attrs| == 0 then Ok([])
    else if Nullish(attrs[0]) then Err(ReadError(attrs[0], "trait_type"))
    else
      var rest := TraitTypes(attrs[1..]);
      if rest.Err? then rest
      else Ok([Get(attrs[0], "trait_type")] + rest.value)
  }

  /** `map` succeeds exactly when no entry is undefined or null, and then reads each trait_type. */
  lemma {:induction false} TraitTypesOk(attrs: seq<Json>)
    ensures TraitTypes(attrs).Ok? <==> forall i | 0 <= i < |attrs| :: !Nullish(attrs[i])
    ensures TraitTypes(attrs).Ok? ==> |TraitTypes(attrs).value| == |attrs|
    ensures TraitTypes(attrs).Ok? ==>
      forall i | 0 <= i < |attrs| :: TraitTypes(attrs).value[i] == Get(attrs[i], "trait_type")
  {
    if |attrs| > 0 {
      TraitTypesOk(attrs[1..]);
      if !Nullish(attrs[0]) && TraitTypes(attrs[1..]).Err? {
        var i :| 0 <= i < |attrs| - 1 && Nullish(attrs[1..][i]);
        assert Nullish(attrs[i + 1]);
      }
    }
  }

  /** The error `attributes.map` throws is the one of its first undefined or null entry. */
  lemma {:induction false} TraitTypesThrowsAtFirst(attrs: seq<Json>, k: nat)
    requires k < |attrs| && Nullish(attrs[k])
    requires forall i | 0 <= i < k :: !Nullish(attrs[i])
    ensures TraitTypes(attrs) == Err(ReadError(attrs[k], "trait_type"))
  {
    if k > 0 {
      TraitTypesThrowsAtFirst(attrs[1..], k - 1);
    }
  }

  /** One error per schema trait type absent from the attributes' trait types. */
  function MissingAttributes(types: seq<Json>, required: seq<string>): seq<string> {
    if |required| == 0 then []
    else
      var t := required[|required| - 1];
      MissingAttributes(types, required[..|required| - 1]) + (if Str(t) in types then [] else [MissingAttribute(t)])
  }

  /** Exactly the schema trait types absent from the attributes are reported. */
  lemma {:induction false} MissingAttributesExact(types: seq<Json>, required: seq<string>)
    ensures |MissingAttributes(types, required)| <= |required|
    ensures forall t | t in required && Str(t) !in types :: MissingAttribute(t) in MissingAttributes(types, required)
    ensures forall e | e in MissingAttributes(types, required) ::
      exists t | t in required :: Str(t) !in types && e == MissingAttribute(t)
  {
    if |required| > 0 {
      var init := required[..|required| - 1];
      MissingAttributesExact(types, init);
      assert required == init + [required[|required| - 1]];
    }
  }

  predicate BadAttribute(a: Json) {
    !Truthy(Get(a, "trait_type")) || !Truthy(Get(a, "value"))
  }

  /** One error per attribute among the first `n` whose trait_type or value is falsy. */
  function InvalidAttributes(attrs: seq<Json>, n: nat): seq<string>
    requires n <= |attrs|
  {
    if n == 0 then []
    else InvalidAttributes(attrs, n - 1) + (if BadAttribute(attrs[n - 1]) then [InvalidAttribute(n - 1)] else [])
  }

  /** Exactly the indices of incomplete attributes among the first `n` are reported. */
  lemma {:induction false} InvalidAttributesExact(attrs: seq<Json>, n: nat)
    requires n <= |attrs|
    ensures |InvalidAttributes(attrs, n)| <= n
    ensures forall i | 0 <= i < n && BadAttribute(attrs[i]) :: InvalidAttribute(i) in InvalidAttributes(attrs, n)
    ensures forall e | e in InvalidAttributes(attrs, n) ::
      exists i | 0 <= i < n :: BadAttribute(attrs[i]) && e == InvalidAttribute(i)
  {
    if n > 0 {
      InvalidAttributesExact(attrs, n - 1);
    }
  }

  /** The errors of the attribute check, or the exception `map` throws. */
  function AttributeErrors(attrs: Json, required: seq<string>): (r: Result<seq<string>, string>)
    ensures !attrs.Arr? ==> r == Ok([NOT_AN_ARRAY])
  {
    if attrs.Arr? then
      var types := TraitTypes(attrs.items);
      if types.Err? then Err(types.error)
      else Ok(MissingAttributes(types.value, required) + InvalidAttributes(attrs.items, |attrs.items|))
    else Ok([NOT_AN_ARRAY])
  }

  /** The warnings for the recommended properties; `in` throws on a primitive. */
  function MissingProperties(props: Json, names: seq<string>): (r: Result<seq<string>, string>)
    ensures r.Err? <==> |names| > 0 && !(props.Obj? || props.Arr?)
    ensures props.Obj? ==> r == Ok(PropertyWarningsOf(props, names))
  {
    if |names| == 0 then Ok([])
    else
      var before := MissingProperties(props, names[..|names| - 1]);
      var p := names[|names| - 1];
      var has := In(p, props);
      if before.Err? then before
      else if has.Err? then Err(has.error)
      else Ok(before.value + (if has.value then [] else [MissingProperty(p)]))
  }

  /** The warnings for an object: one per recommended property it does not own. */
  function PropertyWarningsOf(props: Json, names: seq<string>): seq<string>
    requires props.Obj?
  {
    if |names| == 0 then []
    else
      var p := names[|names| - 1];
      PropertyWarningsOf(props, names[..|names| - 1]) + (if HasKey(props.fields, p) then [] else [MissingProperty(p)])
  }

  /** On an object, exactly the recommended properties it does not own are warned about. */
  lemma {:induction false} PropertyWarningsExact(props: Json, names: seq<string>)
    requires props.Obj?
    ensures forall p | p in names && !HasKey(props.fields, p) ::
      MissingProperty(p) in PropertyWarningsOf(props, names)
    ensures forall w | w in PropertyWarningsOf(props, names) ::
      exists p | p in names :: !HasKey(props.fields, p) && w == MissingProperty(p)
  {
    if |names| > 0 {
      var init := names[..|names| - 1];
      PropertyWarningsExact(props, init);
      assert names == init + [names[|names| - 1]];
    }
  }

  /** The warnings of the properties check. */
  function PropertyWarnings(props: Json, names: seq<string>): (r: Result<seq<string>, string>)
    ensures !Truthy(props) ==> r == Ok(["Missing properties object"])
  {
    if Truthy(props) then MissingProperties(props, names) else Ok(["Missing properties object"])
  }

  /** `attributes.find(attr => attr.trait_type === traitType)`, or undefined. */
  function FindTrait(attrs: seq<Json>, traitType: string): (a: Json)
    ensures a != Undefined ==> a in attrs && Get(a, "trait_type") == Str(traitType)
    ensures a == Undefined ==> forall x | x in attrs :: Get(x, "trait_type") != Str(traitType)
  {
    if |attrs| == 0 then Undefined
    else if Get(attrs[0], "trait_type") == Str(traitType) then attrs[0]
    else FindTrait(attrs[1..], traitType)
  }

  /** `if (attr && isNaN(attr.value))` */
  function NumberCheck(attr: Json, what: string): seq<string> {
    if Truthy(attr) && IsNaN(Get(attr, "value")) then [NotANumber(what)] else []
  }

  /** `isNaN(d) || d < 0 || d > 100` for the result `d` of parseInt. */
  predicate NotAPercentage(d: Json) {
    !d.Num? || d.n < 0 || d.n > 100
  }

  function DiscountCheck(attr: Json): seq<string> {
    if Truthy(attr) && NotAPercentage(ParseInt(Get(attr, "value"))) then [DISCOUNT_ERROR] else []
  }

  function NftErrors(attrs: seq<Json>): seq<string> {
    NumberCheck(FindTrait(attrs, "Token ID"), "Token ID") + NumberCheck(FindTrait(attrs, "Balance"), "Balance")
  }

  function TemplateErrors(attrs: seq<Json>): seq<string> {
    NumberCheck(FindTrait(attrs, "Price"), "Price") + DiscountCheck(FindTrait(attrs, "Discount"))
  }

  function SoldCountCheck(props: Json): (r: Result<seq<string>, string>) {
    if !Truthy(props) then Ok([])
    else
      var has := In("soldCount", props);
      if has.Err? then Err(has.error)
      else if has.value && IsNaN(Get(props, "soldCount")) then Ok([NotANumber("Sold count")])
      else Ok([])
  }

  function EventErrors(attrs: seq<Json>, props: Json): (r: Result<seq<string>, string>) {
    var sold := SoldCountCheck(props);
    if sold.Err? then sold
    else Ok(NumberCheck(FindTrait(attrs, "Capacity"), "Capacity") + sold.value)
  }

  /** The TypeError of `metadata.attributes.find(…)` on a non-array. */
  function FindError(attrs: Json): string {
    if Nullish(attrs) then ReadError(attrs, "find") else "metadata.attributes.find is not a function"
  }

  /** The type-specific check: every helper starts with `metadata.attributes.find`. */
  function TypeErrors(kind: string, m: Json): (r: Result<seq<string>, string>)
    requires kind in {"NFT", "TEMPLATE", "EVENT"}
    ensures !Get(m, "attributes").Arr? ==> r == Err(FindError(Get(m, "attributes")))
  {
    var attrs := Get(m, "attributes");
    if !attrs.Arr? then Err(FindError(attrs))
    else if kind == "NFT" then Ok(NftErrors(attrs.items))
    else if kind == "TEMPLATE" then Ok(TemplateErrors(attrs.items))
    else EventErrors(attrs.items, Get(m, "properties"))
  }

  /** `validateMetadata(metadata, type)`: the report, or the message of what it throws. */
  function Validation(m: Json, t: string): (r: Result<Report, string>) {
    var kind := ToUpper(t);
    var schema := SchemaFor(kind);
    if schema.None? then Err("Unknown metadata type: " + t)
    else if Nullish(m) then Err(ReadError(m, "name"))
    else
      var s := schema.value;
      var attrErrors := AttributeErrors(Get(m, "attributes"), s.attributes);
      var warnings := PropertyWarnings(Get(m, "properties"), s.properties);
      var typed := TypeErrors(kind, m);
      if attrErrors.Err? then Err(attrErrors.error)
      else if warnings.Err? then Err(warnings.error)
      else if typed.Err? then Err(typed.error)
      else
        var errors := FieldErrors(m, s.required) + attrErrors.value + typed.value;
        Ok(Report(|errors| == 0, errors, warnings.value))
  }

  // --------------------------------------------------------- the validator

  /** The `result` object the checks update in place. */
  class ValidationResult {
    var valid: bool
    var errors: seq<string>
    var warnings: seq<string>

    /** The flag is cleared exactly when an error has been pushed. */
    predicate Consistent()
      reads this
    {
      valid <==> |errors| == 0
    }

    constructor()
      ensures valid && errors == [] && warnings == []
    {
      valid := true;
      errors := [];
      warnings := [];
    }

    /** `result.errors.push(e); result.valid = false;` */
    method AddError(e: string)
      modifies this
      ensures !valid && errors == old(errors) + [e] && warnings == old(warnings)
    {
      errors := errors + [e];
      valid := false;
    }

    /** `result.warnings.push(w)`; the flag is left alone. */
    method AddWarning(w: string)
      modifies this
      ensures valid == old(valid) && errors == old(errors) && warnings == old(warnings) + [w]
    {
      warnings := warnings + [w];
    }
  }

  /** `validateNFTMetadata(metadata, result)` */
  method CheckNft(m: Json, result: ValidationResult) returns (thrown: Option<string>)
    modifies result
    ensures !Get(m, "attributes").Arr? ==> thrown == Some(FindError(Get(m, "attributes")))
    ensures Get(m, "attributes").Arr? ==> thrown == None
    ensures Get(m, "attributes").Arr? ==> result.errors == old(result.errors) + NftErrors(Get(m, "attributes").items)
    ensures result.warnings == old(result.warnings)
    ensures old(result.Consistent()) ==> result.Consistent()
  {
    var attrs := Get(m, "attributes");
    if !attrs.Arr? {
      return Some(FindError(attrs));
    }
    var tokenId := FindTrait(attrs.items, "Token ID");
    if Truthy(tokenId) && IsNaN(Get(tokenId, "value")) {
      result.AddError(NotANumber("Token ID"));
    }
    var balance := FindTrait(attrs.items, "Balance");
    if Truthy(balance) && IsNaN(Get(balance, "value")) {
      result.AddError(NotANumber("Balance"));
    }
    return None;
  }

  /** `validateTemplateMetadata(metadata, result)` */
  method CheckTemplate(m: Json, result: ValidationResult) returns (thrown: Option<string>)
    modifies result
    ensures !Get(m, "attributes").Arr? ==> thrown == Some(FindError(Get(m, "attributes")))
    ensures Get(m, "attributes").Arr? ==> thrown == None
    ensures Get(m, "attributes").Arr? ==> result.errors == old(result.errors) + TemplateErrors(Get(m, "attributes").items)
    ensures result.warnings == old(result.warnings)
    ensures old(result.Consistent()) ==> result.Consistent()
  {
    var attrs := Get(m, "attributes");
    if !attrs.Arr? {
      return Some(FindError(attrs));
    }
    var price := FindTrait(attrs.items, "Price");
    if Truthy(price) && IsNaN(Get(price, "value")) {
      result.AddError(NotANumber("Price"));
    }
    ghost var afterPrice := result.errors;
    assert afterPrice == old(result.errors) + NumberCheck(price, "Price");
    var discount := FindTrait(attrs.items, "Discount");
    if Truthy(discount) {
      var d := ParseInt(Get(discount, "value"));
      if NotAPercentage(d) {
        result.AddError(DISCOUNT_ERROR);
      }
    }
    assert result.errors == afterPrice + DiscountCheck(discount);
    AppendBoth(old(result.errors), NumberCheck(price, "Price"), DiscountCheck(discount), result.errors);
    return None;
  }

  /** Errors pushed in two rounds are the old errors and both rounds'. */
  lemma AppendBoth(before: seq<string>, first: seq<string>, second: seq<string>, after: seq<string>)
    requires after == before + first + second
    ensures after == before + (first + second)
  {
  }

  /** `validateEventMetadata(metadata, result)` */
  method CheckEvent(m: Json, result: ValidationResult) returns (thrown: Option<string>)
    modifies result
    ensures !Get(m, "attributes").Arr? ==> thrown == Some(FindError(Get(m, "attributes")))
    ensures Get(m, "attributes").Arr? ==> var e := EventErrors(Get(m, "attributes").items, Get(m, "properties"));
      (thrown.Some? <==> e.Err?) && (e.Err? ==> thrown.value == e.error) &&
      (e.Ok? ==> result.errors == old(result.errors) + e.value)
    ensures result.warnings == old(result.warnings)
    ensures old(result.Consistent()) ==> result.Consistent()
  {
    var attrs := Get(m, "attributes");
    if !attrs.Arr? {
      return Some(FindError(attrs));
    }
    var capacity := FindTrait(attrs.items, "Capacity");
    if Truthy(capacity) && IsNaN(Get(capacity, "value")) {
      result.AddError(NotANumber("Capacity"));
    }
    var props := Get(m, "properties");
    if Truthy(props) {
      var has := In("soldCount", props);
      if has.Err? {
        return Some(has.error);
      }
      if has.value && IsNaN(Get(props, "soldCount")) {
        result.AddError(NotANumber("Sold count"));
      }
    }
    return None;
  }

  /** When `in` throws on a primitive, it does so for the first recommended property. */
  lemma {:induction false} MissingPropertiesThrowsAtFirst(props: Json, names: seq<string>)
    requires |names| > 0 && !(props.Obj? || props.Arr?)
    ensures MissingProperties(props, names) == Err(In(names[0], props).error)
  {
    if |names| > 1 {
      MissingPropertiesThrowsAtFirst(props, names[..|names| - 1]);
    }
  }

  /** The required-field loop: reading a field of undefined or null throws. */
  method CheckRequired(m: Json, fields: seq<string>, result: ValidationResult) returns (thrown: Option<string>)
    requires |fields| > 0
    modifies result
    ensures Nullish(m) ==> thrown == Some(ReadError(m, fields[0]))
    ensures !Nullish(m) ==> thrown == None && result.errors == old(result.errors) + FieldErrors(m, fields)
    ensures result.warnings == old(result.warnings)
    ensures old(result.Consistent()) ==> result.Consistent()
  {
    var i := 0;
    while i < |fields|
      invariant 0 <= i <= |fields|
      invariant i > 0 ==> !Nullish(m)
      invariant result.errors == old(result.errors) + FieldErrors(m, fields[..i])
      invariant result.warnings == old(result.warnings)
      invariant old(result.Consistent()) ==> result.Consistent()
    {
      var field := fields[i];
      var v := Member(m, field);
      if v.Err? {
        return Some(v.error);
      }
      if !Truthy(v.value) {
        result.AddError(MissingField(field));
      }
      assert fields[..i + 1][..i] == fields[..i];
      i := i + 1;
    }
    assert fields[..i] == fields;
    return None;
  }

  /** `attributes.map(attr => attr.trait_type)` */
  method MapTraitTypes(items: seq<Json>) returns (r: Result<seq<Json>, string>)
    ensures r == TraitTypes(items)
  {
    var types: seq<Json> := [];
    var j := 0;
    while j < |items|
      invariant 0 <= j <= |items| && |types| == j
      invariant forall k | 0 <= k < j :: !Nullish(items[k]) && types[k] == Get(items[k], "trait_type")
    {
      var tt := Member(items[j], "trait_type");
      if tt.Err? {
        TraitTypesThrowsAtFirst(items, j);
        return Err(tt.error);
      }
      types := types + [tt.value];
      j := j + 1;
    }
    TraitTypesOk(items);
    assert types == TraitTypes(items).value;
    return Ok(types);
  }

  /** The loop over the schema's trait types. */
  method ReportMissingAttributes(types: seq<Json>, required: seq<string>, result: ValidationResult)
    modifies result
    ensures result.errors == old(result.errors) + MissingAttributes(types, required)
    ensures result.warnings == old(result.warnings)
    ensures old(result.Consistent()) ==> result.Consistent()
  {
    var k := 0;
    while k < |required|
      invariant 0 <= k <= |required|
      invariant result.errors == old(result.errors) + MissingAttributes(types, required[..k])
      invariant result.warnings == old(result.warnings)
      invariant old(result.Consistent()) ==> result.Consistent()
    {
      var name := required[k];
      if Str(name) !in types {
        result.AddError(MissingAttribute(name));
      }
      assert required[..k + 1][..k] == required[..k];
      k := k + 1;
    }
    assert required[..k] == required;
  }

  /** The loop over the attributes, by index. */
  method ReportInvalidAttributes(items: seq<Json>, result: ValidationResult)
    modifies result
    ensures result.errors == old(result.errors) + InvalidAttributes(items, |items|)
    ensures result.warnings == old(result.warnings)
    ensures old(result.Consistent()) ==> result.Consistent()
  {
    var index := 0;
    while index < |items|
      invariant 0 <= index <= |items|
      invariant result.errors == old(result.errors) + InvalidAttributes(items, index)
      invariant result.warnings == old(result.warnings)
      invariant old(result.Consistent()) ==> result.Consistent()
    {
      var attr := items[index];
      if !Truthy(Get(attr, "trait_type")) || !Truthy(Get(attr, "value")) {
        result.AddError(InvalidAttribute(index));
      }
      index := index + 1;
    }
  }

  /** The attribute checks: absent schema trait types, then incomplete entries. */
  method CheckAttributes(attrs: Json, required: seq<string>, result: ValidationResult)
    returns (thrown: Option<string>)
    modifies result
    ensures var a := AttributeErrors(attrs, required);
      (thrown.Some? <==> a.Err?) && (a.Err? ==> thrown.value == a.error) &&
      (a.Ok? ==> result.errors == old(result.errors) + a.value)
    ensures result.warnings == old(result.warnings)
    ensures old(result.Consistent()) ==> result.Consistent()
  {
    if !attrs.Arr? {
      result.AddError(NOT_AN_ARRAY);
      return None;
    }
    var mapped := MapTraitTypes(attrs.items);
    if mapped.Err? {
      return Some(mapped.error);
    }
    ghost var before := result.errors;
    ReportMissingAttributes(mapped.value, required, result);
    ReportInvalidAttributes(attrs.items, result);
    assert result.errors == before + (MissingAttributes(mapped.value, required) + InvalidAttributes(attrs.items, |attrs.items|));
    return None;
  }

  /** The recommended-property check: warnings only, never an error. */
  method CheckProperties(props: Json, names: seq<string>, result: ValidationResult)
    returns (thrown: Option<string>)
    modifies result
    ensures var w := PropertyWarnings(props, names);
      (thrown.Some? <==> w.Err?) && (w.Err? ==> thrown.value == w.error) &&
      (w.Ok? ==> result.warnings == old(result.warnings) + w.value)
    ensures result.errors == old(result.errors) && result.valid == old(result.valid)
  {
    if !Truthy(props) {
      result.AddWarning("Missing properties object");
      return None;
    }
    var p := 0;
    while p < |names|
      invariant 0 <= p <= |names|
      invariant MissingProperties(props, names[..p]).Ok?
      invariant result.warnings == old(result.warnings) + MissingProperties(props, names[..p]).value
      invariant result.errors == old(result.errors) && result.valid == old(result.valid)
    {
      var name := names[p];
      var has := In(name, props);
      if has.Err? {
        MissingPropertiesThrowsAtFirst(props, names);
        return Some(has.error);
      }
      assert names[..p + 1][..p] == names[..p];
      assert names[..p + 1][p] == name;
      if !has.value {
        result.AddWarning(MissingProperty(name));
      }
      p := p + 1;
    }
    assert names[..p] == names;
    return None;
  }

  /**
   * `validateMetadata(metadata, type)`: the checks run in source order on one
   * result object; the value returned is `Validation`, and in it `valid` is
   * false exactly when some error was pushed.
   */
  method Validate(m: Json, t: string) returns (r: Result<Report, string>)
    ensures r == Validation(m, t)
    ensures r.Ok? ==> (r.value.valid <==> |r.value.errors| == 0)
    ensures SchemaFor(ToUpper(t)).None? ==> r == Err("Unknown metadata type: " + t)
  {
    var kind := ToUpper(t);
    var found := SchemaFor(kind);
    if found.None? {
      return Err("Unknown metadata type: " + t);
    }
    var schema := found.value;
    var result := new ValidationResult();
    var thrown := CheckRequired(m, schema.required, result);
    if thrown.Some? {
      return Err(thrown.value);
    }
    ghost var fieldErrors := result.errors;
    assert fieldErrors == FieldErrors(m, schema.required);
    var attrs := Get(m, "attributes");
    thrown := CheckAttributes(attrs, schema.attributes, result);
    if thrown.Some? {
      return Err(thrown.value);
    }
    ghost var attrErrors := AttributeErrors(attrs, schema.attributes);
    assert result.errors == fieldErrors + attrErrors.value;
    thrown := CheckProperties(Get(m, "properties"), schema.properties, result);
    if thrown.Some? {
      return Err(thrown.value);
    }
    ghost var before := result.errors;
    ghost var typed := TypeErrors(kind, m);
    if kind == "NFT" {
      thrown := CheckNft(m, result);
    } else if kind == "TEMPLATE" {
      thrown := CheckTemplate(m, result);
    } else {
      thrown := CheckEvent(m, result);
    }
    assert thrown.Some? <==> typed.Err?;
    if thrown.Some? {
      return Err(thrown.value);
    }
    assert result.errors == before + typed.value;
    assert result.warnings == PropertyWarnings(Get(m, "properties"), schema.properties).value;
    assert !Nullish(m);
    assert result.Consistent();
    assert result.errors == fieldErrors + attrErrors.value + typed.value;
    return Ok(Report(result.valid, result.errors, result.warnings));
  }

  // ------------------------------------------------------- spec-level facts

  /** The "Attributes must be an array" error never reaches the caller: with a
      non-array `attributes`, the type-specific helper's `find` throws. */
  lemma NonArrayAttributesThrow(m: Json, t: string)
    requires SchemaFor(ToUpper(t)).Some? && !Nullish(m) && !Get(m, "attributes").Arr?
    ensures Validation(m, t).Err?
  {
  }

  /** A TEMPLATE's discount error is reported exactly when a Discount attribute
      exists and parseInt of its value is NaN or outside 0..100. */
  lemma DiscountErrorIff(attrs: seq<Json>)
    ensures DISCOUNT_ERROR in TemplateErrors(attrs) <==>
      var d := FindTrait(attrs, "Discount");
      Truthy(d) && NotAPercentage(ParseInt(Get(d, "value")))
  {
    assert NotANumber("Price")[0] == 'P' != DISCOUNT_ERROR[0];
  }

  // ------------------------------------------------------------- IPFS URIs

  predicate IsAlnum(c: char) {
    'a' <= c <= 'z' || 'A' <= c <= 'Z' || '0' <= c <= '9'
  }

  /** `[a-zA-Z0-9]{n}$`: exactly `n` more characters, each an ASCII letter or digit. */
  predicate MatchesAlnum(s: string, n: nat) {
    if n == 0 then |s| == 0 else |s| > 0 && IsAlnum(s[0]) && MatchesAlnum(s[1..], n - 1)
  }

  /** `/^ipfs:\/\/[a-zA-Z0-9]{46}$/.test(s)` */
  predicate MatchesIpfs(s: string) {
    |s| >= 7 && s[..7] == "ipfs://" && MatchesAlnum(s[7..], 46)
  }

  /** `validateIPFSUri(uri)`: a falsy argument is rejected; `test` reads String(uri). */
  predicate ValidateIpfsUri(uri: Json) {
    Truthy(uri) && MatchesIpfs(Show(uri))
  }

  lemma {:induction false} MatchesAlnumIff(s: string, n: nat)
    ensures MatchesAlnum(s, n) <==> |s| == n && forall i | 0 <= i < |s| :: IsAlnum(s[i])
  {
    if n > 0 && |s| > 0 {
      MatchesAlnumIff(s[1..], n - 1);
      assert forall i | 1 <= i < |s| :: s[i] == s[1..][i - 1];
    }
  }

  /** A string is accepted exactly when it is "ipfs://" and 46 ASCII letters or digits. */
  lemma IpfsUriIff(h: string)
    ensures ValidateIpfsUri(Str("ipfs://" + h)) <==> |h| == 46 && forall c | c in h :: IsAlnum(c)
  {
    var s := "ipfs://" + h;
    assert s[..7] == "ipfs://" && s[7..] == h;
    MatchesAlnumIff(h, 46);
    if |h| == 46 && (forall c | c in h :: IsAlnum(c)) {
      assert forall i | 0 <= i < |h| :: h[i] in h;
    }
  }

  /** Any accepted value reads as a 53-character string. */
  lemma IpfsUriLength(uri: Json)
    requires ValidateIpfsUri(uri)
    ensures |Show(uri)| == 53
  {
    MatchesAlnumIff(Show(uri)[7..], 46);
  }

  // --------------------------------------------------------------- batches

  /** One element of `results`: `{index, ...result}`, or the caught exception. */
  datatype Entry = Entry(index: nat, valid: bool, errors: seq<string>, warnings: seq<string>)

  datatype BatchReport = BatchReport(totalChecked: nat, validCount: nat, invalidCount: nat, results: seq<Entry>)

  function EntryOf(m: Json, t: string, index: nat): Entry {
    match Validation(m, t)
    case Ok(rep) => Entry(index, rep.valid, rep.errors, rep.warnings)
    case Err(msg) => Entry(index, false, [msg], [])
  }

  /** `results.filter(r => r.valid).length` */
  function CountValid(rs: seq<Entry>): nat {
    if |rs| == 0 then 0 else CountValid(rs[..|rs| - 1]) + (if rs[|rs| - 1].valid then 1 else 0)
  }

  /** `results.filter(r => !r.valid).length` */
  function CountInvalid(rs: seq<Entry>): nat {
    if |rs| == 0 then 0 else CountInvalid(rs[..|rs| - 1]) + (if rs[|rs| - 1].valid then 0 else 1)
  }

  /** `batchValidateMetadata(metadataArray, type)` */
  function BatchValidate(input: Json, t: string): Result<BatchReport, string> {
    if !input.Arr? then Err("Input must be an array of metadata objects")
    else
      var results := seq(|input.items|, i requires 0 <= i < |input.items| => EntryOf(input.items[i], t, i));
      Ok(BatchReport(|results|, CountValid(results), CountInvalid(results), results))
  }

  lemma {:induction false} CountsPartition(rs: seq<Entry>)
    ensures CountValid(rs) + CountInvalid(rs) == |rs|
  {
    if |rs| > 0 {
      CountsPartition(rs[..|rs| - 1]);
    }
  }

  /** Every entry's flag agrees with its errors, including a caught exception's. */
  lemma EntryConsistent(m: Json, t: string, index: nat)
    ensures EntryOf(m, t, index).valid <==> |EntryOf(m, t, index).errors| == 0
  {
  }

  /** A non-array throws; otherwise there is one entry per input, in input order,
      and the valid and invalid counts add up to the total. */
  lemma BatchTotals(input: Json, t: string)
    ensures BatchValidate(input, t).Err? <==> !input.Arr?
    ensures input.Arr? ==>
      var b := BatchValidate(input, t).value;
      b.totalChecked == |input.items| == |b.results| &&
      b.validCount + b.invalidCount == b.totalChecked &&
      forall i | 0 <= i < |b.results| :: b.results[i] == EntryOf(input.items[i], t, i) && b.results[i].index == i
  {
    if input.Arr? {
      CountsPartition(BatchValidate(input, t).value.results);
    }
  }
}
