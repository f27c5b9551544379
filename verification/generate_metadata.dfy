/**
 * The V2 metadata generator: a base object filled with defaults, one
 * generator per kind (NFT, TEMPLATE, EVENT) that overrides the name and lays
 * out the attributes and properties, and the structural check every generated
 * object passes before it is returned.
 */
module GenerateMetadata {
  import opened Wrappers
  import opened Js

  /** The wall clock the generator reads: `Date.now()` and `new Date().toISOString()`. */
  datatype Clock = Clock(millis: int, iso: string)

  /** `{ trait_type, value }` */
  function Attr(traitType: string, value: Json): (a: Json)
    ensures a.Obj? && Get(a, "trait_type") == Str(traitType) && Get(a, "value") == value
  {
    var fields := [("trait_type", Str(traitType)), ("value", value)];
    assert |fields[0].0| != |"value"|;
    LookupAt(fields, "value", 1);
    Obj(fields)
  }

  /** `baseMetadata`: defaults for the three descriptive fields, no attributes,
      and the properties `type`, `createdAt` and then `options.properties`. */
  function BaseMetadata(t: string, data: Json, options: Json, clock: Clock): (base: seq<(string, Json)>)
    ensures IsBase(base)
    ensures base[0].1 == if Truthy(Get(data, "name")) then Get(data, "name") else Str("WaveX Asset")
    ensures base[1].1 == if Truthy(Get(data, "description")) then Get(data, "description") else Str("A WaveX digital asset")
    ensures base[2].1 == if Truthy(Get(data, "image")) then Get(data, "image") else Str("ipfs://QmDefaultImageHash")
    ensures base[3].1 == Arr([])
    ensures var extra := SpreadFields(Or(Get(options, "properties"), Obj([])));
      base[4].1.Obj? &&
      (!HasKey(extra, "type") ==> Get(base[4].1, "type") == Str(t)) &&
      (!HasKey(extra, "createdAt") ==> Get(base[4].1, "createdAt") == Str(clock.iso))
  {
    var extra := Or(Get(options, "properties"), Obj([]));
    var props := [("type", Str(t)), ("createdAt", Str(clock.iso))];
    assert |props[0].0| != |"createdAt"|;
    LookupAt(props, "createdAt", 1);
    [("name", Or(Get(data, "name"), Str("WaveX Asset"))),
     ("description", Or(Get(data, "description"), Str("A WaveX digital asset"))),
     ("image", Or(Get(data, "image"), Str("ipfs://QmDefaultImageHash"))),
     ("attributes", Arr([])),
     ("properties", Obj(Assign(props, SpreadFields(extra))))]
  }

  /** `data.x?.toString() || fallback` */
  function ShownOr(v: Json, fallback: string): Json {
    Or(OptToString(v), Str(fallback))
  }

  /** The generated attributes, then the caller's (`...(data.attributes || [])`). */
  function WithCallerAttributes(generated: seq<Json>, data: Json): Result<seq<Json>, string> {
    var extra := SpreadItems(Or(Get(data, "attributes"), Arr([])));
    if extra.Err? then Err(extra.error) else Ok(generated + extra.value)
  }

  /** The shape of `baseMetadata`: its five properties, in order. */
  predicate IsBase(base: seq<(string, Json)>) {
    |base| == 5 && base[0].0 == "name" && base[1].0 == "description" && base[2].0 == "image" &&
    base[3].0 == "attributes" && base[4].0 == "properties"
  }

  /** `{...base, name, attributes, properties: {...base.properties, …props}}`: the
      spread keeps the order of `base` and the three overridden properties keep
      their places. */
  function Override(base: seq<(string, Json)>, name: Json, attrs: seq<Json>, props: seq<(string, Json)>): Json
    requires IsBase(base)
  {
    var baseProps := SpreadFields(base[4].1);
    Obj(base[0 := ("name", name)][3 := ("attributes", Arr(attrs))][4 := ("properties", Obj(Assign(baseProps, props)))])
  }

  function NftAttributes(data: Json): seq<Json> {
    [Attr("Token ID", ShownOr(Get(data, "tokenId"), "0")),
     Attr("Template", ShownOr(Get(data, "templateId"), "Custom")),
     Attr("Balance", ShownOr(Get(data, "balance"), "0"))]
  }

  /** `generateNFTMetadata(data, baseMetadata)` */
  function NftMetadata(data: Json, base: seq<(string, Json)>, clock: Clock): Result<Json, string>
    requires IsBase(base)
  {
    var attrs := WithCallerAttributes(NftAttributes(data), data);
    if attrs.Err? then Err(attrs.error)
    else
      var name := Or(Get(data, "name"), Str("WaveX NFT #" + IntToString(clock.millis)));
      Ok(Override(base, name, attrs.value,
        [("tokenId", Get(data, "tokenId")), ("templateId", Get(data, "templateId")), ("owner", Get(data, "owner"))]))
  }

  function TemplateAttributes(data: Json): seq<Json> {
    [Attr("Template ID", OptToString(Get(data, "templateId"))),
     Attr("Base Balance", OptToString(Get(data, "baseBalance"))),
     Attr("Price", OptToString(Get(data, "price"))),
     Attr("Discount", Str(Show(Or(Get(data, "discount"), Num(0))) + "%")),
     Attr("VIP", Str(if Truthy(Get(data, "isVIP")) then "Yes" else "No"))]
  }

  /** `generateTemplateMetadata(data, baseMetadata)` */
  function TemplateMetadata(data: Json, base: seq<(string, Json)>): Result<Json, string>
    requires IsBase(base)
  {
    var attrs := WithCallerAttributes(TemplateAttributes(data), data);
    if attrs.Err? then Err(attrs.error)
    else
      var name := Or(Get(data, "name"), Str("WaveX Template #" + Show(Get(data, "templateId"))));
      Ok(Override(base, name, attrs.value,
        [("templateId", Get(data, "templateId")), ("active", Get(data, "active"))]))
  }

  function EventAttributes(data: Json): seq<Json> {
    [Attr("Event ID", OptToString(Get(data, "eventId"))),
     Attr("Capacity", OptToString(Get(data, "capacity"))),
     Attr("Price", OptToString(Get(data, "price"))),
     Attr("Type", ShownOr(Get(data, "eventType"), "Standard")),
     Attr("Status", Str(if Truthy(Get(data, "active")) then "Active" else "Inactive"))]
  }

  /** `generateEventMetadata(data, baseMetadata)` */
  function EventMetadata(data: Json, base: seq<(string, Json)>): Result<Json, string>
    requires IsBase(base)
  {
    var attrs := WithCallerAttributes(EventAttributes(data), data);
    if attrs.Err? then Err(attrs.error)
    else
      var name := Or(Get(data, "name"), Str("WaveX Event #" + Show(Get(data, "eventId"))));
      Ok(Override(base, name, attrs.value,
        [("eventId", Get(data, "eventId")), ("active", Get(data, "active")),
         ("soldCount", Or(Get(data, "soldCount"), Num(0)))]))
  }

  // ------------------------------------------------------------- the check

  const REQUIRED := ["name", "description", "image", "attributes"]

  /** `requiredFields.filter(field => !metadata[field])` */
  function MissingFields(md: Json, fields: seq<string>): seq<string> {
    if |fields| == 0 then []
    else (if Truthy(Get(md, fields[0])) then [] else [fields[0]]) + MissingFields(md, fields[1..])
  }

  predicate GoodAttribute(a: Json) {
    !Nullish(a) && Truthy(Get(a, "trait_type")) && Truthy(Get(a, "value"))
  }

  /** The `forEach` from index `from` on: the first undefined or null entry
      throws a TypeError, the first incomplete one the check's own error. */
  function CheckAttributeList(items: seq<Json>, from: nat): Result<(), string>
    decreases |items| - from
  {
    if from >= |items| then Ok(())
    else if Nullish(items[from]) then Err(ReadError(items[from], "trait_type"))
    else if !GoodAttribute(items[from]) then
      Err("Invalid attribute at index " + NatToString(from) + ": missing trait_type or value")
    else CheckAttributeList(items, from + 1)
  }

  /** `validateMetadata(metadata)` of the generator: returns, or throws the first problem. */
  function CheckMetadata(md: Json): Result<(), string> {
    if Nullish(md) then Err(ReadError(md, "name"))
    else
      var missing := MissingFields(md, REQUIRED);
      if |missing| > 0 then Err("Missing required metadata fields: " + Join(missing, ", "))
      else if !Get(md, "attributes").Arr? then Err("Metadata attributes must be an array")
      else CheckAttributeList(Get(md, "attributes").items, 0)
  }

  /** `generateMetadata(type, data, options)`; `options` defaults to `{}` when undefined. */
  function Generate(t: string, data: Json, options: Json, clock: Clock): (r: Result<Json, string>)
    ensures r.Ok? ==> CheckMetadata(r.value).Ok?
  {
    if Nullish(data) then Err(ReadError(data, "name"))
    else if options.Null? then Err(ReadError(options, "properties"))
    else
      var base := BaseMetadata(t, data, options, clock);
      var kind := ToUpper(t);
      var md :=
        if kind == "NFT" then NftMetadata(data, base, clock)
        else if kind == "TEMPLATE" then TemplateMetadata(data, base)
        else if kind == "EVENT" then EventMetadata(data, base)
        else Err("Unsupported metadata type: " + t);
      if md.Err? then md
      else
        var checked := CheckMetadata(md.value);
        if checked.Err? then Err(checked.error) else md
  }

  // ---------------------------------------------------------------- facts

  /** The missing fields are the falsy ones, in the order of the list. */
  lemma {:induction false} MissingFieldsExact(md: Json, fields: seq<string>)
    ensures forall f | f in MissingFields(md, fields) :: f in fields && !Truthy(Get(md, f))
    ensures forall f | f in fields && !Truthy(Get(md, f)) :: f in MissingFields(md, fields)
  {
    if |fields| > 0 {
      MissingFieldsExact(md, fields[1..]);
      assert forall f | f in fields :: f == fields[0] || f in fields[1..];
    }
  }

  /** The `forEach` passes exactly when every entry from `from` on is complete. */
  lemma {:induction false} CheckAttributeListOk(items: seq<Json>, from: nat)
    ensures CheckAttributeList(items, from).Ok? <==> forall i | from <= i < |items| :: GoodAttribute(items[i])
    decreases |items| - from
  {
    if from < |items| {
      CheckAttributeListOk(items, from + 1);
    }
  }

  /** The error reported is the one of the first entry that is not complete. */
  lemma {:induction false} FirstBadAttributeReported(items: seq<Json>, from: nat, k: nat)
    requires from <= k < |items| && !Nullish(items[k]) && !GoodAttribute(items[k])
    requires forall i | from <= i < k :: GoodAttribute(items[i])
    ensures CheckAttributeList(items, from) ==
      Err("Invalid attribute at index " + NatToString(k) + ": missing trait_type or value")
    decreases k - from
  {
    if from < k {
      FirstBadAttributeReported(items, from + 1, k);
    }
  }

  /** A type other than NFT, TEMPLATE or EVENT, in any letter case, is refused. */
  lemma UnsupportedTypeThrows(t: string, data: Json, options: Json, clock: Clock)
    requires !Nullish(data) && !options.Null?
    requires ToUpper(t) !in {"NFT", "TEMPLATE", "EVENT"}
    ensures Generate(t, data, options, clock) == Err("Unsupported metadata type: " + t)
  {
  }

  lemma RequiredPresent(md: Json)
    ensures MissingFields(md, REQUIRED) == [] <==>
      Truthy(Get(md, "name")) && Truthy(Get(md, "description")) && Truthy(Get(md, "image")) &&
      Truthy(Get(md, "attributes"))
  {
    MissingFieldsExact(md, REQUIRED);
    if MissingFields(md, REQUIRED) != [] {
      assert MissingFields(md, REQUIRED)[0] in MissingFields(md, REQUIRED);
    }
  }

  /** The check passes exactly on truthy name, description and image and an
      array of complete attributes. */
  lemma CheckMetadataOk(md: Json)
    ensures CheckMetadata(md).Ok? <==>
      !Nullish(md) && Truthy(Get(md, "name")) && Truthy(Get(md, "description")) && Truthy(Get(md, "image")) &&
      Get(md, "attributes").Arr? &&
      forall a | a in Get(md, "attributes").items :: GoodAttribute(a)
  {
    RequiredPresent(md);
    if Get(md, "attributes").Arr? {
      var items := Get(md, "attributes").items;
      CheckAttributeListOk(items, 0);
      assert (forall i | 0 <= i < |items| :: GoodAttribute(items[i])) <==> (forall a | a in items :: GoodAttribute(a));
    }
  }

  /** Everything the generator returns has passed its check. */
  lemma GeneratedIsWellFormed(t: string, data: Json, options: Json, clock: Clock)
    requires Generate(t, data, options, clock).Ok?
    ensures var md := Generate(t, data, options, clock).value;
      Truthy(Get(md, "name")) && Truthy(Get(md, "description")) && Truthy(Get(md, "image")) &&
      Get(md, "attributes").Arr? &&
      forall a | a in Get(md, "attributes").items :: GoodAttribute(a)
  {
    CheckMetadataOk(Generate(t, data, options, clock).value);
  }

  /** On success the generator returns the kind's own object. */
  lemma GenerateIsKind(t: string, data: Json, options: Json, clock: Clock)
    requires Generate(t, data, options, clock).Ok?
    ensures !Nullish(data)
    ensures var base := BaseMetadata(t, data, options, clock);
      var md := Generate(t, data, options, clock);
      (ToUpper(t) == "NFT" && md == NftMetadata(data, base, clock)) ||
      (ToUpper(t) == "TEMPLATE" && md == TemplateMetadata(data, base)) ||
      (ToUpper(t) == "EVENT" && md == EventMetadata(data, base))
  {
  }

  /** The object built by the generators holds exactly the attributes given. */
  lemma OverrideAttributes(base: seq<(string, Json)>, name: Json, attrs: seq<Json>, props: seq<(string, Json)>)
    requires IsBase(base)
    ensures Get(Override(base, name, attrs, props), "attributes") == Arr(attrs)
    ensures Get(Override(base, name, attrs, props), "name") == name
  {
    var fields := Override(base, name, attrs, props).fields;
    assert |fields[0].0| == 4 && |fields[1].0| == 11 && |fields[2].0| == 5 && |"attributes"| == 10;
    LookupAt(fields, "attributes", 3);
  }

  /** The generators' attributes are their own list followed by the caller's. */
  lemma {:induction false} GeneratedAttributes(generated: seq<Json>, data: Json, base: seq<(string, Json)>,
                                               name: Json, props: seq<(string, Json)>)
    requires IsBase(base) && WithCallerAttributes(generated, data).Ok?
    ensures var attrs := WithCallerAttributes(generated, data).value;
      Get(Override(base, name, attrs, props), "attributes") == Arr(attrs) &&
      attrs[..|generated|] == generated &&
      Ok(attrs[|generated|..]) == SpreadItems(Or(Get(data, "attributes"), Arr([])))
  {
    var attrs := WithCallerAttributes(generated, data).value;
    OverrideAttributes(base, name, attrs, props);
    var extra := SpreadItems(Or(Get(data, "attributes"), Arr([]))).value;
    assert attrs == generated + extra;
    assert attrs[|generated|..] == extra;
  }

  /** TEMPLATE attributes: Template ID, Base Balance, Price, Discount as
      "<discount or 0>%", VIP as "Yes"/"No", then the caller's attributes. */
  lemma TemplateAttributeOrder(data: Json, base: seq<(string, Json)>)
    requires IsBase(base)
    requires TemplateMetadata(data, base).Ok?
    ensures Get(TemplateMetadata(data, base).value, "attributes").Arr?
    ensures var items := Get(TemplateMetadata(data, base).value, "attributes").items;
      |items| >= 5 &&
      items[..5] == [
        Attr("Template ID", OptToString(Get(data, "templateId"))),
        Attr("Base Balance", OptToString(Get(data, "baseBalance"))),
        Attr("Price", OptToString(Get(data, "price"))),
        Attr("Discount", Str(Show(Or(Get(data, "discount"), Num(0))) + "%")),
        Attr("VIP", Str(if Truthy(Get(data, "isVIP")) then "Yes" else "No"))] &&
      Ok(items[5..]) == SpreadItems(Or(Get(data, "attributes"), Arr([])))
  {
    var name := Or(Get(data, "name"), Str("WaveX Template #" + Show(Get(data, "templateId"))));
    var props := [("templateId", Get(data, "templateId")), ("active", Get(data, "active"))];
    GeneratedAttributes(TemplateAttributes(data), data, base, name, props);
  }

  /** An attribute whose value is undefined fails the check. */
  lemma UndefinedValueFails(md: Json, k: nat)
    requires Get(md, "attributes").Arr? && k < |Get(md, "attributes").items|
    requires Get(Get(md, "attributes").items[k], "value") == Undefined
    ensures CheckMetadata(md).Err?
  {
    CheckMetadataOk(md);
    assert Get(md, "attributes").items[k] in Get(md, "attributes").items;
  }

  /** An object whose attributes begin with `prefix` fails the check when
      one of the attributes of `prefix` has an undefined value. */
  lemma PrefixValueFails(md: Json, prefix: seq<Json>, k: nat)
    requires Get(md, "attributes").Arr?
    requires |prefix| <= |Get(md, "attributes").items| && Get(md, "attributes").items[..|prefix|] == prefix
    requires k < |prefix| && Get(prefix[k], "value") == Undefined
    ensures CheckMetadata(md).Err?
  {
    assert Get(md, "attributes").items[k] == prefix[k];
    UndefinedValueFails(md, k);
  }

  /** The first three template attributes carry the values of `data`, undefined when missing. */
  lemma TemplateFirstValues(data: Json)
    ensures |TemplateAttributes(data)| == 5
    ensures Get(TemplateAttributes(data)[0], "value") == OptToString(Get(data, "templateId")) &&
      Get(TemplateAttributes(data)[1], "value") == OptToString(Get(data, "baseBalance")) &&
      Get(TemplateAttributes(data)[2], "value") == OptToString(Get(data, "price"))
  {
    var attrs := TemplateAttributes(data);
    AttrValueAt(attrs, 0, "Template ID", OptToString(Get(data, "templateId")));
    AttrValueAt(attrs, 1, "Base Balance", OptToString(Get(data, "baseBalance")));
    AttrValueAt(attrs, 2, "Price", OptToString(Get(data, "price")));
  }

  /** Metadata whose attributes begin with the template attributes of `data`
      fails the check when one of the first three values is missing. */
  lemma TemplateMissingValueFails(data: Json, md: Json)
    requires Get(md, "attributes").Arr?
    requires |Get(md, "attributes").items| >= 5 && Get(md, "attributes").items[..5] == TemplateAttributes(data)
    requires Nullish(Get(data, "templateId")) || Nullish(Get(data, "baseBalance")) || Nullish(Get(data, "price"))
    ensures CheckMetadata(md).Err?
  {
    TemplateFirstValues(data);
    var k := if Nullish(Get(data, "templateId")) then 0 else if Nullish(Get(data, "baseBalance")) then 1 else 2;
    PrefixValueFails(md, TemplateAttributes(data), k);
  }

  /** A TEMPLATE without templateId, baseBalance or price cannot be generated. */
  lemma TemplateNeedsIdBalancePrice(t: string, data: Json, options: Json, clock: Clock)
    requires ToUpper(t) == "TEMPLATE"
    requires Nullish(Get(data, "templateId")) || Nullish(Get(data, "baseBalance")) || Nullish(Get(data, "price"))
    ensures Generate(t, data, options, clock).Err?
  {
    if Generate(t, data, options, clock).Ok? {
      var base := BaseMetadata(t, data, options, clock);
      GenerateIsKind(t, data, options, clock);
      var name := Or(Get(data, "name"), Str("WaveX Template #" + Show(Get(data, "templateId"))));
      var props := [("templateId", Get(data, "templateId")), ("active", Get(data, "active"))];
      GeneratedAttributes(TemplateAttributes(data), data, base, name, props);
      TemplateMissingValueFails(data, Generate(t, data, options, clock).value);
    }
  }

  /** EVENT attributes: Event ID, Capacity, Price, Type (default "Standard"),
      Status "Active" exactly when `active` is truthy, then the caller's. */
  lemma EventAttributeOrder(data: Json, base: seq<(string, Json)>)
    requires IsBase(base)
    requires EventMetadata(data, base).Ok?
    ensures Get(EventMetadata(data, base).value, "attributes").Arr?
    ensures var items := Get(EventMetadata(data, base).value, "attributes").items;
      |items| >= 5 &&
      items[..5] == [
        Attr("Event ID", OptToString(Get(data, "eventId"))),
        Attr("Capacity", OptToString(Get(data, "capacity"))),
        Attr("Price", OptToString(Get(data, "price"))),
        Attr("Type", Or(OptToString(Get(data, "eventType")), Str("Standard"))),
        Attr("Status", Str(if Truthy(Get(data, "active")) then "Active" else "Inactive"))] &&
      Ok(items[5..]) == SpreadItems(Or(Get(data, "attributes"), Arr([])))
  {
    var name := Or(Get(data, "name"), Str("WaveX Event #" + Show(Get(data, "eventId"))));
    var props := [("eventId", Get(data, "eventId")), ("active", Get(data, "active")),
      ("soldCount", Or(Get(data, "soldCount"), Num(0)))];
    GeneratedAttributes(EventAttributes(data), data, base, name, props);
  }

  /** The first three event attributes carry the values of `data`, undefined when missing. */
  lemma EventFirstValues(data: Json)
    ensures |EventAttributes(data)| == 5
    ensures Get(EventAttributes(data)[0], "value") == OptToString(Get(data, "eventId")) &&
      Get(EventAttributes(data)[1], "value") == OptToString(Get(data, "capacity")) &&
      Get(EventAttributes(data)[2], "value") == OptToString(Get(data, "price"))
  {
    var attrs := EventAttributes(data);
    AttrValueAt(attrs, 0, "Event ID", OptToString(Get(data, "eventId")));
    AttrValueAt(attrs, 1, "Capacity", OptToString(Get(data, "capacity")));
    AttrValueAt(attrs, 2, "Price", OptToString(Get(data, "price")));
  }

  /** The value of an attribute built with `Attr`. */
  lemma AttrValueAt(attrs: seq<Json>, i: nat, traitType: string, value: Json)
    requires i < |attrs| && attrs[i] == Attr(traitType, value)
    ensures Get(attrs[i], "value") == value
  {
  }

  /** Metadata whose attributes begin with the event attributes of `data`
      fails the check when one of the first three values is missing. */
  lemma EventMissingValueFails(data: Json, md: Json)
    requires Get(md, "attributes").Arr?
    requires |Get(md, "attributes").items| >= 5 && Get(md, "attributes").items[..5] == EventAttributes(data)
    requires Nullish(Get(data, "eventId")) || Nullish(Get(data, "capacity")) || Nullish(Get(data, "price"))
    ensures CheckMetadata(md).Err?
  {
    EventFirstValues(data);
    var k := if Nullish(Get(data, "eventId")) then 0 else if Nullish(Get(data, "capacity")) then 1 else 2;
    PrefixValueFails(md, EventAttributes(data), k);
  }

  /** An EVENT without eventId, capacity or price cannot be generated. */
  lemma EventNeedsIdCapacityPrice(t: string, data: Json, options: Json, clock: Clock)
    requires ToUpper(t) == "EVENT"
    requires Nullish(Get(data, "eventId")) || Nullish(Get(data, "capacity")) || Nullish(Get(data, "price"))
    ensures Generate(t, data, options, clock).Err?
  {
    if Generate(t, data, options, clock).Ok? {
      var base := BaseMetadata(t, data, options, clock);
      GenerateIsKind(t, data, options, clock);
      var name := Or(Get(data, "name"), Str("WaveX Event #" + Show(Get(data, "eventId"))));
      var props := [("eventId", Get(data, "eventId")), ("active", Get(data, "active")),
        ("soldCount", Or(Get(data, "soldCount"), Num(0)))];
      GeneratedAttributes(EventAttributes(data), data, base, name, props);
      EventMissingValueFails(data, Generate(t, data, options, clock).value);
    }
  }

  /** The properties of the generated object: the base's, then the kind's. */
  lemma OverrideProperties(base: seq<(string, Json)>, name: Json, attrs: seq<Json>, props: seq<(string, Json)>)
    requires IsBase(base)
    ensures Get(Override(base, name, attrs, props), "properties") == Obj(Assign(SpreadFields(base[4].1), props))
  {
    var fields := Override(base, name, attrs, props).fields;
    assert |fields[0].0| == 4 && |fields[1].0| == 11 && |fields[2].0| == 5 && |fields[3].0| == 10;
    assert |"properties"| == 10 && fields[3].0[0] != "properties"[0];
    LookupAt(fields, "properties", 4);
  }

  /** An event's `soldCount` property is `data.soldCount`, or 0 when falsy. */
  lemma EventSoldCountDefault(data: Json, base: seq<(string, Json)>)
    requires IsBase(base)
    requires EventMetadata(data, base).Ok?
    ensures Get(Get(EventMetadata(data, base).value, "properties"), "soldCount") == Or(Get(data, "soldCount"), Num(0))
  {
    var name := Or(Get(data, "name"), Str("WaveX Event #" + Show(Get(data, "eventId"))));
    var attrs := WithCallerAttributes(EventAttributes(data), data).value;
    var props := [("eventId", Get(data, "eventId")), ("active", Get(data, "active")),
      ("soldCount", Or(Get(data, "soldCount"), Num(0)))];
    EventIsOverride(data, base);
    OverrideProperties(base, name, attrs, props);
    SoldCountOverride(SpreadFields(base[4].1), Get(data, "eventId"), Get(data, "active"), Or(Get(data, "soldCount"), Num(0)));
  }

  /** The event metadata is the base overridden with the event's values. */
  lemma EventIsOverride(data: Json, base: seq<(string, Json)>)
    requires IsBase(base)
    requires EventMetadata(data, base).Ok?
    ensures EventMetadata(data, base).value ==
      Override(base, Or(Get(data, "name"), Str("WaveX Event #" + Show(Get(data, "eventId")))),
        WithCallerAttributes(EventAttributes(data), data).value,
        [("eventId", Get(data, "eventId")), ("active", Get(data, "active")),
         ("soldCount", Or(Get(data, "soldCount"), Num(0)))])
  {
  }

  /** The sold count the event's properties assign is the one read back. */
  lemma SoldCountOverride(fields: seq<(string, Json)>, eventId: Json, active: Json, soldCount: Json)
    ensures Lookup(Assign(fields, [("eventId", eventId), ("active", active), ("soldCount", soldCount)]), "soldCount") == soldCount
  {
    var props := [("eventId", eventId), ("active", active), ("soldCount", soldCount)];
    assert |props[0].0| == 7 && |props[1].0| == 6 && |props[2].0| == 9;
    assert HasKey(props, "soldCount") by { assert props[2].0 == "soldCount"; }
    AssignOverrides(fields, props, "soldCount");
    LookupAt(props, "soldCount", 2);
  }

  /** NFT attributes fall back to Token ID "0", Template "Custom" and Balance "0". */
  lemma NftDefaults(data: Json)
    ensures Nullish(Get(data, "tokenId")) ==> NftAttributes(data)[0] == Attr("Token ID", Str("0"))
    ensures Nullish(Get(data, "templateId")) ==> NftAttributes(data)[1] == Attr("Template", Str("Custom"))
    ensures Nullish(Get(data, "balance")) ==> NftAttributes(data)[2] == Attr("Balance", Str("0"))
  {
  }
}
