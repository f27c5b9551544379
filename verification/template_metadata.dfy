/**
 * The template metadata script: a template's metadata is generated from the
 * template record and the caller's options, and checked before it is kept.
 */
module TemplateMetadata {
  import opened Wrappers
  import opened Js
  import GenerateMetadata
  import AssetMetadata

  /** The trait types `validateTemplateMetadata` requires. */
  const REQUIRED_TRAITS := ["Type", "Base Balance", "Price"]
  const DEFAULT_IMAGE := "ipfs://QmDefaultTemplateImageHash"
  const PHRASE := " - A WaveX Template"

  /** The four generated attributes, for a template whose balance and price
      can be turned into strings. */
  function TemplateAttributes(template: Json): seq<Json> {
    [GenerateMetadata.Attr("Type", Str(if Truthy(Get(template, "isVIP")) then "VIP" else "Standard")),
     GenerateMetadata.Attr("Base Balance", Str(Show(Get(template, "baseBalance")))),
     GenerateMetadata.Attr("Price", Str(Show(Get(template, "price")))),
     GenerateMetadata.Attr("Discount", Str(Show(Get(template, "discount")) + "%"))]
  }

  /** The object generation builds from a usable template and the caller's
      spread attributes. */
  function Metadata(template: Json, opts: Json, extra: seq<Json>, clock: GenerateMetadata.Clock): Json {
    AssetMetadata.Assembled(template, opts, PHRASE, DEFAULT_IMAGE, "templateId", TemplateAttributes(template) + extra, clock)
  }

  /** The caller's attributes, `...(options.attributes || [])`. */
  function Extra(opts: Json): Result<seq<Json>, string> {
    SpreadItems(Or(Get(opts, "attributes"), Arr([])))
  }

  /** The inputs reach the check: nothing read along the way is undefined
      or null, and the caller's attributes can be spread. */
  predicate Usable(template: Json, opts: Json) {
    !Nullish(template) && !opts.Null? &&
    !Nullish(Get(template, "baseBalance")) && !Nullish(Get(template, "price")) && Extra(opts).Ok?
  }

  /** `generateTemplateMetadata(template, options)`: the metadata, or the
      error the first failing step throws. */
  function Generate(template: Json, options: Json, clock: GenerateMetadata.Clock): (r: Result<Json, string>)
    ensures r.Ok? ==> AssetMetadata.Validate(r.value, REQUIRED_TRAITS).Ok?
  {
    var opts := AssetMetadata.WithDefault(options);
    if Nullish(template) then Err(ReadError(template, "name"))
    else if opts.Null? then Err(ReadError(opts, "description"))
    else if Nullish(Get(template, "baseBalance")) then Err(ReadError(Get(template, "baseBalance"), "toString"))
    else if Nullish(Get(template, "price")) then Err(ReadError(Get(template, "price"), "toString"))
    else if Extra(opts).Err? then Err(Extra(opts).error)
    else
      var md := Metadata(template, opts, Extra(opts).value, clock);
      var checked := AssetMetadata.Validate(md, REQUIRED_TRAITS);
      if checked.Err? then Err(checked.error) else Ok(md)
  }

  /** A successful generation is the built object of usable inputs. */
  lemma GenerateResult(template: Json, options: Json, clock: GenerateMetadata.Clock)
    requires Generate(template, options, clock).Ok?
    ensures var opts := AssetMetadata.WithDefault(options);
      Usable(template, opts) && Generate(template, options, clock) == Ok(Metadata(template, opts, Extra(opts).value, clock))
  {
  }

  /** Usable inputs give the built object when it passes the check, and the
      check's error otherwise. */
  lemma GenerateChecked(template: Json, options: Json, clock: GenerateMetadata.Clock)
    requires Usable(template, AssetMetadata.WithDefault(options))
    ensures var opts := AssetMetadata.WithDefault(options);
      var md := Metadata(template, opts, Extra(opts).value, clock);
      Generate(template, options, clock) ==
        if AssetMetadata.Validate(md, REQUIRED_TRAITS).Ok? then Ok(md)
        else Err(AssetMetadata.Validate(md, REQUIRED_TRAITS).error)
  {
  }

  /** The generated attributes carry every required trait type. */
  lemma TemplateTraitsCarried(template: Json, extra: seq<Json>)
    ensures AssetMetadata.Carries(TemplateAttributes(template) + extra, "Type")
    ensures AssetMetadata.Carries(TemplateAttributes(template) + extra, "Base Balance")
    ensures AssetMetadata.Carries(TemplateAttributes(template) + extra, "Price")
  {
    var ts := TemplateAttributes(template);
    TemplateAttributeTypes(template);
    AssetMetadata.CarriesAt(ts, extra, 0, "Type");
    AssetMetadata.CarriesAt(ts, extra, 1, "Base Balance");
    AssetMetadata.CarriesAt(ts, extra, 2, "Price");
  }

  /** The generated attributes are all objects. */
  lemma TemplateAttributesPresent(template: Json)
    ensures AssetMetadata.Present(TemplateAttributes(template))
  {
    var ts := TemplateAttributes(template);
    PresentFour(ts[0], ts[1], ts[2], ts[3]);
    assert ts == [ts[0], ts[1], ts[2], ts[3]];
  }

  /** Four objects are all present. */
  lemma PresentFour(a: Json, b: Json, c: Json, d: Json)
    requires a.Obj? && b.Obj? && c.Obj? && d.Obj?
    ensures AssetMetadata.Present([a, b, c, d])
  {
  }

  /** The three traits a template must carry. */
  lemma RequiredCarried(attrs: seq<Json>)
    requires AssetMetadata.Carries(attrs, "Type") && AssetMetadata.Carries(attrs, "Base Balance")
    requires AssetMetadata.Carries(attrs, "Price")
    ensures forall t | t in REQUIRED_TRAITS :: AssetMetadata.Carries(attrs, t)
  {
  }

  /** The built object passes the check exactly when the name is truthy and
      no caller attribute is undefined or null. */
  lemma MetadataValid(template: Json, opts: Json, extra: seq<Json>, clock: GenerateMetadata.Clock)
    ensures AssetMetadata.Validate(Metadata(template, opts, extra, clock), REQUIRED_TRAITS).Ok? <==>
      Truthy(Get(template, "name")) && AssetMetadata.Present(extra)
  {
    var attrs := TemplateAttributes(template) + extra;
    TemplateTraitsCarried(template, extra);
    TemplateAttributesPresent(template);
    AssetMetadata.PresentConcat(TemplateAttributes(template), extra);
    RequiredCarried(attrs);
    AssetMetadata.AssembledValid(template, opts, PHRASE, DEFAULT_IMAGE, "templateId", attrs, clock, REQUIRED_TRAITS);
  }

  /** Generation succeeds exactly when the template has a balance, a price
      and a truthy name, the options are not null, and the caller's
      attributes can be spread and hold no undefined or null entry. */
  lemma GenerateOk(template: Json, options: Json, clock: GenerateMetadata.Clock)
    ensures var opts := AssetMetadata.WithDefault(options);
      Generate(template, options, clock).Ok? <==>
        !Nullish(template) && !opts.Null? &&
        !Nullish(Get(template, "baseBalance")) && !Nullish(Get(template, "price")) &&
        Extra(opts).Ok? && Truthy(Get(template, "name")) && AssetMetadata.Present(Extra(opts).value)
  {
    var opts := AssetMetadata.WithDefault(options);
    if Generate(template, options, clock).Ok? {
      GenerateResult(template, options, clock);
    }
    if Usable(template, opts) {
      GenerateChecked(template, options, clock);
      MetadataValid(template, opts, Extra(opts).value, clock);
    }
  }

  /** The generated attributes are the template's four, then the caller's. */
  lemma GeneratedAttributes(template: Json, options: Json, clock: GenerateMetadata.Clock)
    requires Generate(template, options, clock).Ok?
    ensures var extra := Extra(AssetMetadata.WithDefault(options));
      extra.Ok? && Get(Generate(template, options, clock).value, "attributes") == Arr(TemplateAttributes(template) + extra.value)
  {
    var opts := AssetMetadata.WithDefault(options);
    GenerateResult(template, options, clock);
    var attrs := TemplateAttributes(template) + Extra(opts).value;
    AssetMetadata.AssembledFields(template, opts, PHRASE, DEFAULT_IMAGE, "templateId", attrs, clock);
  }

  /** The template's attributes carry the trait types Type, Base Balance,
      Price and Discount, in that order. */
  lemma TemplateAttributeTypes(template: Json)
    ensures var attrs := TemplateAttributes(template);
      |attrs| == 4 &&
      AssetMetadata.Trait(attrs[0]) == Str("Type") && AssetMetadata.Trait(attrs[1]) == Str("Base Balance") &&
      AssetMetadata.Trait(attrs[2]) == Str("Price") && AssetMetadata.Trait(attrs[3]) == Str("Discount")
  {
  }

  /** The Type attribute reads "VIP" exactly when the template is a VIP one,
      and "Standard" otherwise. */
  lemma TemplateTypeLabel(template: Json)
    ensures var shown := Get(TemplateAttributes(template)[0], "value");
      (shown == Str("VIP") <==> Truthy(Get(template, "isVIP"))) &&
      (shown == Str("Standard") <==> !Truthy(Get(template, "isVIP")))
  {
    assert "Standard" != "VIP";
  }

  /** The other values: the balance and the price as strings, the discount
      with a percent sign. */
  lemma TemplateAttributeValues(template: Json)
    ensures var attrs := TemplateAttributes(template);
      Get(attrs[1], "value") == Str(Show(Get(template, "baseBalance"))) &&
      Get(attrs[2], "value") == Str(Show(Get(template, "price"))) &&
      Get(attrs[3], "value") == Str(Show(Get(template, "discount")) + "%")
  {
  }

  /** Name, description and image: the template's name, the caller's
      description or "<name> - A WaveX Template", the caller's image or the
      default one. */
  lemma GeneratedDescriptive(template: Json, options: Json, clock: GenerateMetadata.Clock)
    requires Generate(template, options, clock).Ok?
    ensures var md := Generate(template, options, clock).value;
      var opts := AssetMetadata.WithDefault(options);
      Get(md, "name") == Get(template, "name") &&
      Get(md, "description") == (if Truthy(Get(opts, "description")) then Get(opts, "description")
                                 else Str(Show(Get(template, "name")) + " - A WaveX Template")) &&
      Get(md, "image") == (if Truthy(Get(opts, "image")) then Get(opts, "image")
                           else Str("ipfs://QmDefaultTemplateImageHash"))
  {
    var opts := AssetMetadata.WithDefault(options);
    GenerateResult(template, options, clock);
    var attrs := TemplateAttributes(template) + Extra(opts).value;
    AssetMetadata.AssembledFields(template, opts, PHRASE, DEFAULT_IMAGE, "templateId", attrs, clock);
  }

  /** A template with an empty name cannot be generated: the check names
      the missing field. */
  lemma EmptyNameFails(template: Json, options: Json, clock: GenerateMetadata.Clock)
    requires Get(template, "name") == Str("") && Usable(template, AssetMetadata.WithDefault(options))
    ensures Generate(template, options, clock) == Err("Missing required metadata fields: name")
  {
    var opts := AssetMetadata.WithDefault(options);
    GenerateChecked(template, options, clock);
    var attrs := TemplateAttributes(template) + Extra(opts).value;
    AssetMetadata.AssembledFields(template, opts, PHRASE, DEFAULT_IMAGE, "templateId", attrs, clock);
    AssetMetadata.OnlyNameMissing(Metadata(template, opts, Extra(opts).value, clock), REQUIRED_TRAITS);
  }

}
