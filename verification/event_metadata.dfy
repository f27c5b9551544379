/**
 * The event metadata script: an event's metadata is generated from the
 * event record and the caller's options, and checked before it is kept.
 */
module EventMetadata {
  import opened Wrappers
  import opened Js
  import GenerateMetadata
  import AssetMetadata
  import EventConfig

  /** The trait types `validateEventMetadata` requires. */
  const REQUIRED_TRAITS := ["Type", "Capacity", "Price"]
  const DEFAULT_IMAGE := "ipfs://QmDefaultEventImageHash"
  const PHRASE := " - A WaveX Event"

  /** `Object.keys(EVENT_TYPES)[eventType] || 'STANDARD'` */
  function TypeLabel(eventType: Json): Json {
    Or(ElementAt(EventConfig.TypeKeys(), eventType), Str("STANDARD"))
  }

  /** The four generated attributes, for an event whose capacity and price
      can be turned into strings. */
  function EventAttributes(event: Json): seq<Json> {
    [GenerateMetadata.Attr("Type", TypeLabel(Get(event, "eventType"))),
     GenerateMetadata.Attr("Capacity", Str(Show(Get(event, "capacity")))),
     GenerateMetadata.Attr("Price", Str(Show(Get(event, "price")))),
     GenerateMetadata.Attr("Status", Str(if Truthy(Get(event, "active")) then "Active" else "Inactive"))]
  }

  /** The object generation builds from a usable event and the caller's
      spread attributes. */
  function Metadata(event: Json, opts: Json, extra: seq<Json>, clock: GenerateMetadata.Clock): Json {
    AssetMetadata.Assembled(event, opts, PHRASE, DEFAULT_IMAGE, "eventId", EventAttributes(event) + extra, clock)
  }

  /** The caller's attributes, `...(options.attributes || [])`. */
  function Extra(opts: Json): Result<seq<Json>, string> {
    SpreadItems(Or(Get(opts, "attributes"), Arr([])))
  }

  /** The inputs reach the check: nothing read along the way is undefined
      or null, and the caller's attributes can be spread. */
  predicate Usable(event: Json, opts: Json) {
    !Nullish(event) && !opts.Null? &&
    !Nullish(Get(event, "capacity")) && !Nullish(Get(event, "price")) && Extra(opts).Ok?
  }

  /** `generateEventMetadata(event, options)`: the metadata, or the error the
      first failing step throws. */
  function Generate(event: Json, options: Json, clock: GenerateMetadata.Clock): (r: Result<Json, string>)
    ensures r.Ok? ==> AssetMetadata.Validate(r.value, REQUIRED_TRAITS).Ok?
  {
    var opts := AssetMetadata.WithDefault(options);
    if Nullish(event) then Err(ReadError(event, "name"))
    else if opts.Null? then Err(ReadError(opts, "description"))
    else if Nullish(Get(event, "capacity")) then Err(ReadError(Get(event, "capacity"), "toString"))
    else if Nullish(Get(event, "price")) then Err(ReadError(Get(event, "price"), "toString"))
    else if Extra(opts).Err? then Err(Extra(opts).error)
    else
      var md := Metadata(event, opts, Extra(opts).value, clock);
      var checked := AssetMetadata.Validate(md, REQUIRED_TRAITS);
      if checked.Err? then Err(checked.error) else Ok(md)
  }

  /** A successful generation is the built object of usable inputs. */
  lemma GenerateResult(event: Json, options: Json, clock: GenerateMetadata.Clock)
    requires Generate(event, options, clock).Ok?
    ensures var opts := AssetMetadata.WithDefault(options);
      Usable(event, opts) && Generate(event, options, clock) == Ok(Metadata(event, opts, Extra(opts).value, clock))
  {
  }

  /** Usable inputs give the built object when it passes the check, and the
      check's error otherwise. */
  lemma GenerateChecked(event: Json, options: Json, clock: GenerateMetadata.Clock)
    requires Usable(event, AssetMetadata.WithDefault(options))
    ensures var opts := AssetMetadata.WithDefault(options);
      var md := Metadata(event, opts, Extra(opts).value, clock);
      Generate(event, options, clock) ==
        if AssetMetadata.Validate(md, REQUIRED_TRAITS).Ok? then Ok(md)
        else Err(AssetMetadata.Validate(md, REQUIRED_TRAITS).error)
  {
  }

  /** The generated attributes carry every required trait type. */
  lemma EventTraitsCarried(event: Json, extra: seq<Json>)
    ensures AssetMetadata.Carries(EventAttributes(event) + extra, "Type")
    ensures AssetMetadata.Carries(EventAttributes(event) + extra, "Capacity")
    ensures AssetMetadata.Carries(EventAttributes(event) + extra, "Price")
  {
    var ts := EventAttributes(event);
    AssetMetadata.CarriesAt(ts, extra, 0, "Type");
    AssetMetadata.CarriesAt(ts, extra, 1, "Capacity");
    AssetMetadata.CarriesAt(ts, extra, 2, "Price");
  }

  /** The generated attributes are all objects. */
  lemma EventAttributesPresent(event: Json)
    ensures AssetMetadata.Present(EventAttributes(event))
  {
    var ts := EventAttributes(event);
    assert forall a | a in ts :: a.Obj?;
  }

  /** The built object passes the check exactly when the name is truthy and
      no caller attribute is undefined or null. */
  lemma MetadataValid(event: Json, opts: Json, extra: seq<Json>, clock: GenerateMetadata.Clock)
    ensures AssetMetadata.Validate(Metadata(event, opts, extra, clock), REQUIRED_TRAITS).Ok? <==>
      Truthy(Get(event, "name")) && AssetMetadata.Present(extra)
  {
    var attrs := EventAttributes(event) + extra;
    EventTraitsCarried(event, extra);
    EventAttributesPresent(event);
    AssetMetadata.PresentConcat(EventAttributes(event), extra);
    assert forall t | t in REQUIRED_TRAITS :: AssetMetadata.Carries(attrs, t);
    assert Metadata(event, opts, extra, clock) ==
      AssetMetadata.Assembled(event, opts, PHRASE, DEFAULT_IMAGE, "eventId", attrs, clock);
    AssetMetadata.AssembledValid(event, opts, PHRASE, DEFAULT_IMAGE, "eventId", attrs, clock, REQUIRED_TRAITS);
  }

  /** Generation succeeds exactly when the event has a capacity, a price and
      a truthy name, the options are not null, and the caller's attributes
      can be spread and hold no undefined or null entry: every generated
      event metadata passes the check. */
  lemma GenerateOk(event: Json, options: Json, clock: GenerateMetadata.Clock)
    ensures var opts := AssetMetadata.WithDefault(options);
      Generate(event, options, clock).Ok? <==>
        !Nullish(event) && !opts.Null? &&
        !Nullish(Get(event, "capacity")) && !Nullish(Get(event, "price")) &&
        Extra(opts).Ok? && Truthy(Get(event, "name")) && AssetMetadata.Present(Extra(opts).value)
  {
    var opts := AssetMetadata.WithDefault(options);
    if Generate(event, options, clock).Ok? {
      GenerateResult(event, options, clock);
    }
    if Usable(event, opts) {
      GenerateChecked(event, options, clock);
      MetadataValid(event, opts, Extra(opts).value, clock);
    }
  }

  /** The generated attributes are the event's four, then the caller's. */
  lemma GeneratedAttributes(event: Json, options: Json, clock: GenerateMetadata.Clock)
    requires Generate(event, options, clock).Ok?
    ensures var extra := Extra(AssetMetadata.WithDefault(options));
      extra.Ok? && Get(Generate(event, options, clock).value, "attributes") == Arr(EventAttributes(event) + extra.value)
  {
    var opts := AssetMetadata.WithDefault(options);
    GenerateResult(event, options, clock);
    var attrs := EventAttributes(event) + Extra(opts).value;
    AssetMetadata.AssembledFields(event, opts, PHRASE, DEFAULT_IMAGE, "eventId", attrs, clock);
  }

  /** The event's attributes carry the trait types Type, Capacity, Price
      and Status, in that order. */
  lemma EventAttributeTypes(event: Json)
    ensures var attrs := EventAttributes(event);
      |attrs| == 4 &&
      AssetMetadata.Trait(attrs[0]) == Str("Type") && AssetMetadata.Trait(attrs[1]) == Str("Capacity") &&
      AssetMetadata.Trait(attrs[2]) == Str("Price") && AssetMetadata.Trait(attrs[3]) == Str("Status")
  {
  }

  /** Capacity and Price are the event's strings; Status is "Active" exactly
      when the event is active, and "Inactive" otherwise. */
  lemma EventAttributeValues(event: Json)
    ensures var attrs := EventAttributes(event);
      Get(attrs[1], "value") == Str(Show(Get(event, "capacity"))) &&
      Get(attrs[2], "value") == Str(Show(Get(event, "price"))) &&
      (Get(attrs[3], "value") == Str("Active") <==> Truthy(Get(event, "active"))) &&
      (Get(attrs[3], "value") == Str("Inactive") <==> !Truthy(Get(event, "active")))
  {
    assert "Active" != "Inactive";
  }

  /** The Type label: the name of the type whose code is the event's type
      number, and "STANDARD" for any number outside the table or a missing
      type. */
  lemma TypeLabelOfCode(eventType: Json)
    ensures eventType.Num? && 0 <= eventType.n < |EventConfig.TypeKeys()| ==>
      TypeLabel(eventType).Str? && Get(EventConfig.EVENT_TYPES, TypeLabel(eventType).s) == eventType
    ensures eventType.Num? && !(0 <= eventType.n < |EventConfig.TypeKeys()|) ==> TypeLabel(eventType) == Str("STANDARD")
    ensures Nullish(eventType) ==> TypeLabel(eventType) == Str("STANDARD")
  {
    if eventType.Num? && 0 <= eventType.n < |EventConfig.TypeKeys()| {
      EventConfig.TypeKeysNameCodes(eventType.n);
    }
  }

  /** An event with an empty name cannot be generated: the check names the
      missing field. */
  lemma EmptyNameFails(event: Json, options: Json, clock: GenerateMetadata.Clock)
    requires Get(event, "name") == Str("") && Usable(event, AssetMetadata.WithDefault(options))
    ensures Generate(event, options, clock) == Err("Missing required metadata fields: name")
  {
    var opts := AssetMetadata.WithDefault(options);
    GenerateChecked(event, options, clock);
    var attrs := EventAttributes(event) + Extra(opts).value;
    AssetMetadata.AssembledFields(event, opts, PHRASE, DEFAULT_IMAGE, "eventId", attrs, clock);
    AssetMetadata.OnlyNameMissing(Metadata(event, opts, Extra(opts).value, clock), REQUIRED_TRAITS);
  }

  /** The configuration's `getEventMetadata` result does not pass this
      check unless the caller supplies a Price attribute: its own
      attributes are Type and Capacity only. */
  lemma ConfigMetadataNeedsPrice(eventId: Json, options: Json)
    requires EventConfig.GetEventMetadata(eventId, options).Ok?
    requires !AssetMetadata.Carries(SpreadItems(Or(Get(AssetMetadata.WithDefault(options), "attributes"), Arr([]))).value, "Price")
    ensures AssetMetadata.Validate(EventConfig.GetEventMetadata(eventId, options).value, REQUIRED_TRAITS).Err?
  {
    var md := EventConfig.GetEventMetadata(eventId, options).value;
    var extra := SpreadItems(Or(Get(AssetMetadata.WithDefault(options), "attributes"), Arr([]))).value;
    EventConfig.GetEventMetadataAttributes(eventId, options);
    EventConfig.BaseAttributeTypes();
    AssetMetadata.CarriesConcat(EventConfig.BaseAttributes(), extra, "Price");
    AssetMetadata.ValidateOk(md, REQUIRED_TRAITS);
    assert "Price" in REQUIRED_TRAITS;
  }
}
