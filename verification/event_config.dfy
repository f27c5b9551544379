/**
 * The event configuration: the table of event types and the default event
 * metadata, from which `getEventMetadata` builds an event's metadata.
 */
module EventConfig {
  import opened Wrappers
  import opened Js
  import GenerateMetadata
  import AssetMetadata

  /** `EVENT_TYPES`: each type's name and its code. */
  const EVENT_TYPES: Json := Obj([("STANDARD", Num(0)), ("VIP", Num(1)), ("EXCLUSIVE", Num(2))])

  /** `Object.keys(EVENT_TYPES)`, in declaration order. */
  function TypeKeys(): (keys: seq<Json>)
    ensures |keys| == |EVENT_TYPES.fields|
  {
    seq(|EVENT_TYPES.fields|, i requires 0 <= i < |EVENT_TYPES.fields| => Str(EVENT_TYPES.fields[i].0))
  }

  /** The key at position `n` names the type whose code is `n`: STANDARD is 0,
      VIP 1 and EXCLUSIVE 2. */
  lemma TypeKeysNameCodes(n: nat)
    requires n < |TypeKeys()|
    ensures TypeKeys()[n].Str? && Get(EVENT_TYPES, TypeKeys()[n].s) == Num(n)
  {
    var fields := EVENT_TYPES.fields;
    assert fields[0].0[0] != fields[1].0[0] && fields[1].0[0] != fields[2].0[0] && fields[0].0[0] != fields[2].0[0];
    LookupAt(fields, fields[n].0, n);
  }

  /** The two base attributes of `EVENT_METADATA`. */
  function BaseAttributes(): seq<Json> {
    [GenerateMetadata.Attr("Type", Str("Standard")), GenerateMetadata.Attr("Capacity", Str("100"))]
  }

  const DEFAULT_NAME := "Wavex Event"
  const DEFAULT_DESCRIPTION := "A standard Wavex event"
  const DEFAULT_IMAGE := "ipfs://QmYourEventImageHash"

  /** `EVENT_METADATA` */
  function EventMetadata(): Json {
    Obj([("name", Str(DEFAULT_NAME)), ("description", Str(DEFAULT_DESCRIPTION)),
         ("image", Str(DEFAULT_IMAGE)), ("attributes", Arr(BaseAttributes()))])
  }

  /** `{...EVENT_METADATA, name, description, image, attributes}` */
  function Overridden(name: Json, description: Json, image: Json, attrs: seq<Json>): seq<(string, Json)> {
    Put(Put(Put(Put(SpreadFields(EventMetadata()), "name", name), "description", description), "image", image),
        "attributes", Arr(attrs))
  }

  /** Overriding only existing properties keeps the property names of
      `EVENT_METADATA`. */
  lemma OverriddenKeys(name: Json, description: Json, image: Json, attrs: seq<Json>)
    ensures forall k :: HasKey(Overridden(name, description, image, attrs), k) <==> HasKey(EventMetadata().fields, k)
  {
    var f0 := SpreadFields(EventMetadata());
    assert f0[0].0 == "name" && f0[1].0 == "description" && f0[2].0 == "image" && f0[3].0 == "attributes";
    assert HasKey(f0, "name") && HasKey(f0, "description") && HasKey(f0, "image") && HasKey(f0, "attributes");
  }

  /** Each overridden property holds its new value. */
  lemma OverriddenValues(name: Json, description: Json, image: Json, attrs: seq<Json>)
    ensures var fields := Overridden(name, description, image, attrs);
      Lookup(fields, "name") == name && Lookup(fields, "description") == description &&
      Lookup(fields, "image") == image && Lookup(fields, "attributes") == Arr(attrs)
  {
    var f0 := SpreadFields(EventMetadata());
    var f1 := Put(f0, "name", name);
    var f2 := Put(f1, "description", description);
    var f3 := Put(f2, "image", image);
    var f4 := Put(f3, "attributes", Arr(attrs));
    assert "name"[0] != "description"[0] && "name"[0] != "image"[0] && "name"[0] != "attributes"[0];
    assert "description"[0] != "image"[0] && "description"[0] != "attributes"[0] && "image"[0] != "attributes"[0];
    PutOther(f1, "description", f2, "name");
    PutOther(f2, "image", f3, "name");
    PutOther(f3, "attributes", f4, "name");
    PutOther(f2, "image", f3, "description");
    PutOther(f3, "attributes", f4, "description");
    PutOther(f3, "attributes", f4, "image");
  }

  /** `getEventMetadata(eventId, options)`: `EVENT_METADATA` with its four
      properties replaced in place, or the error reading the options throws. */
  function GetEventMetadata(eventId: Json, options: Json): (r: Result<Json, string>)
    ensures r.Ok? ==> r.value.Obj? && Truthy(Get(r.value, "name"))
  {
    var opts := AssetMetadata.WithDefault(options);
    if opts.Null? then Err(ReadError(opts, "name"))
    else
      var extra := SpreadItems(Or(Get(opts, "attributes"), Arr([])));
      if extra.Err? then Err(extra.error)
      else
        var name := Or(Get(opts, "name"), Str(DEFAULT_NAME + " #" + Show(eventId)));
        var description := Or(Get(opts, "description"), Str(DEFAULT_DESCRIPTION));
        var image := Or(Get(opts, "image"), Str(DEFAULT_IMAGE));
        Ok(Obj(Overridden(name, description, image, BaseAttributes() + extra.value)))
  }

  /** It fails exactly on null options and on caller attributes that cannot
      be spread. */
  lemma GetEventMetadataOk(eventId: Json, options: Json)
    ensures GetEventMetadata(eventId, options).Ok? <==>
      !options.Null? && SpreadItems(Or(Get(AssetMetadata.WithDefault(options), "attributes"), Arr([]))).Ok?
  {
  }

  /** The result has exactly the properties of `EVENT_METADATA`. */
  lemma GetEventMetadataKeys(eventId: Json, options: Json)
    requires GetEventMetadata(eventId, options).Ok?
    ensures forall k :: Has(GetEventMetadata(eventId, options).value, k) <==> Has(EventMetadata(), k)
  {
    var opts := AssetMetadata.WithDefault(options);
    var extra := SpreadItems(Or(Get(opts, "attributes"), Arr([]))).value;
    OverriddenKeys(Or(Get(opts, "name"), Str(DEFAULT_NAME + " #" + Show(eventId))),
                   Or(Get(opts, "description"), Str(DEFAULT_DESCRIPTION)),
                   Or(Get(opts, "image"), Str(DEFAULT_IMAGE)), BaseAttributes() + extra);
  }

  /** The name is the caller's when truthy, else "Wavex Event #<eventId>"
      (`DEFAULT_NAME` is "Wavex Event"). */
  lemma GetEventMetadataName(eventId: Json, options: Json)
    requires GetEventMetadata(eventId, options).Ok?
    ensures var opts := AssetMetadata.WithDefault(options);
      Get(GetEventMetadata(eventId, options).value, "name") ==
        if Truthy(Get(opts, "name")) then Get(opts, "name") else Str(DEFAULT_NAME + " #" + Show(eventId))
  {
    var opts := AssetMetadata.WithDefault(options);
    var extra := SpreadItems(Or(Get(opts, "attributes"), Arr([]))).value;
    OverriddenValues(Or(Get(opts, "name"), Str(DEFAULT_NAME + " #" + Show(eventId))),
                     Or(Get(opts, "description"), Str(DEFAULT_DESCRIPTION)),
                     Or(Get(opts, "image"), Str(DEFAULT_IMAGE)), BaseAttributes() + extra);
  }

  /** Description and image fall back to those of `EVENT_METADATA`
      (`DEFAULT_DESCRIPTION` and `DEFAULT_IMAGE`). */
  lemma GetEventMetadataFallbacks(eventId: Json, options: Json)
    requires GetEventMetadata(eventId, options).Ok?
    ensures var md := GetEventMetadata(eventId, options).value;
      var opts := AssetMetadata.WithDefault(options);
      Get(md, "description") == (if Truthy(Get(opts, "description")) then Get(opts, "description")
                                 else Str("A standard Wavex event")) &&
      Get(md, "image") == (if Truthy(Get(opts, "image")) then Get(opts, "image")
                           else Str("ipfs://QmYourEventImageHash"))
  {
    var opts := AssetMetadata.WithDefault(options);
    var extra := SpreadItems(Or(Get(opts, "attributes"), Arr([]))).value;
    OverriddenValues(Or(Get(opts, "name"), Str(DEFAULT_NAME + " #" + Show(eventId))),
                     Or(Get(opts, "description"), Str(DEFAULT_DESCRIPTION)),
                     Or(Get(opts, "image"), Str(DEFAULT_IMAGE)), BaseAttributes() + extra);
  }

  /** The configuration's own attributes are Type and Capacity. */
  lemma BaseAttributeTypes()
    ensures |BaseAttributes()| == 2
    ensures AssetMetadata.Trait(BaseAttributes()[0]) == Str("Type")
    ensures AssetMetadata.Trait(BaseAttributes()[1]) == Str("Capacity")
    ensures forall a | a in BaseAttributes() ::
      AssetMetadata.Trait(a) == Str("Type") || AssetMetadata.Trait(a) == Str("Capacity")
  {
  }

  /** The attributes are the two base ones followed by every caller
      attribute, duplicates included. */
  lemma GetEventMetadataAttributes(eventId: Json, options: Json)
    requires GetEventMetadata(eventId, options).Ok?
    ensures var extra := SpreadItems(Or(Get(AssetMetadata.WithDefault(options), "attributes"), Arr([])));
      var attrs := Get(GetEventMetadata(eventId, options).value, "attributes");
      extra.Ok? && attrs == Arr(BaseAttributes() + extra.value)
  {
    var opts := AssetMetadata.WithDefault(options);
    var extra := SpreadItems(Or(Get(opts, "attributes"), Arr([]))).value;
    OverriddenValues(Or(Get(opts, "name"), Str(DEFAULT_NAME + " #" + Show(eventId))),
                     Or(Get(opts, "description"), Str(DEFAULT_DESCRIPTION)),
                     Or(Get(opts, "image"), Str(DEFAULT_IMAGE)), BaseAttributes() + extra);
  }
}
