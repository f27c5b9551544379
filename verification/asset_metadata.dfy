/**
 * What the template and the event metadata scripts share: the structural
 * check (three descriptive fields, an attributes array, a list of required
 * trait types) and the update that drops every stored attribute an update
 * overrides and appends the update's attributes.
 */
module AssetMetadata {
  import opened Wrappers
  import opened Js
  import GenerateMetadata

  const DESCRIPTIVE := ["name", "description", "image"]

  function Trait(a: Json): Json {
    Get(a, "trait_type")
  }

  /** No entry is undefined or null. */
  predicate Present(items: seq<Json>) {
    forall a | a in items :: !Nullish(a)
  }

  lemma PresentConcat(xs: seq<Json>, ys: seq<Json>)
    ensures Present(xs + ys) <==> Present(xs) && Present(ys)
  {
    assert forall a | a in xs + ys :: a in xs || a in ys;
  }

  /** `attributes.map(attr => attr.trait_type)`: an undefined or null entry throws. */
  function TraitTypes(items: seq<Json>): Result<seq<Json>, string> {
    if |items| == 0 then Ok([])
    else if Nullish(items[0]) then Err(ReadError(items[0], "trait_type"))
    else
      var rest := TraitTypes(items[1..]);
      if rest.Err? then rest else Ok([Trait(items[0])] + rest.value)
  }

  /** `required.filter(t => !types.includes(t))` */
  function MissingTraits(types: seq<Json>, required: seq<string>): seq<string> {
    if |required| == 0 then []
    else (if Str(required[0]) in types then [] else [required[0]]) + MissingTraits(types, required[1..])
  }

  /** Some entry has trait type `t`. */
  predicate Carries(items: seq<Json>, t: string) {
    exists a | a in items :: Trait(a) == Str(t)
  }

  lemma CarriesConcat(xs: seq<Json>, ys: seq<Json>, t: string)
    ensures Carries(xs + ys, t) <==> Carries(xs, t) || Carries(ys, t)
  {
    assert forall a | a in xs + ys :: a in xs || a in ys;
  }

  /** An attribute of the front part carries its type into the whole list. */
  lemma CarriesAt(front: seq<Json>, extra: seq<Json>, i: nat, t: string)
    requires i < |front| && Trait(front[i]) == Str(t)
    ensures Carries(front + extra, t)
  {
    assert (front + extra)[i] == front[i];
  }

  /** `validateTemplateMetadata` / `validateEventMetadata` with the script's
      list of required trait types: returns, or throws the first problem. */
  function Validate(md: Json, required: seq<string>): Result<(), string> {
    if Nullish(md) then Err(ReadError(md, "name"))
    else
      var missing := GenerateMetadata.MissingFields(md, DESCRIPTIVE);
      if |missing| > 0 then Err("Missing required metadata fields: " + Join(missing, ", "))
      else if !Truthy(Get(md, "attributes")) || !Get(md, "attributes").Arr? then
        Err("Metadata must include attributes array")
      else
        var types := TraitTypes(Get(md, "attributes").items);
        if types.Err? then Err(types.error)
        else
          var absent := MissingTraits(types.value, required);
          if |absent| > 0 then Err("Missing required attributes: " + Join(absent, ", ")) else Ok(())
  }

  lemma {:induction false} TraitTypesExact(items: seq<Json>)
    ensures TraitTypes(items).Ok? <==> Present(items)
    ensures TraitTypes(items).Ok? ==> forall t :: t in TraitTypes(items).value <==> exists a | a in items :: Trait(a) == t
  {
    if |items| > 0 {
      TraitTypesExact(items[1..]);
      assert forall a | a in items :: a == items[0] || a in items[1..];
    }
  }

  lemma {:induction false} MissingTraitsExact(types: seq<Json>, required: seq<string>)
    ensures MissingTraits(types, required) == [] <==> forall t | t in required :: Str(t) in types
  {
    if |required| > 0 {
      MissingTraitsExact(types, required[1..]);
      assert forall t | t in required :: t == required[0] || t in required[1..];
    }
  }

  /** No descriptive field is missing exactly when all three are truthy. */
  lemma DescriptivePresent(md: Json)
    ensures GenerateMetadata.MissingFields(md, DESCRIPTIVE) == [] <==>
      Truthy(Get(md, "name")) && Truthy(Get(md, "description")) && Truthy(Get(md, "image"))
  {
    GenerateMetadata.MissingFieldsExact(md, DESCRIPTIVE);
    if GenerateMetadata.MissingFields(md, DESCRIPTIVE) != [] {
      assert GenerateMetadata.MissingFields(md, DESCRIPTIVE)[0] in GenerateMetadata.MissingFields(md, DESCRIPTIVE);
    }
  }

  /** The trait-type part of the check passes exactly when no entry is
      undefined or null and every required type is carried. */
  lemma TraitsPresent(items: seq<Json>, required: seq<string>)
    ensures (TraitTypes(items).Ok? && MissingTraits(TraitTypes(items).value, required) == []) <==>
      Present(items) && (forall t | t in required :: Carries(items, t))
  {
    TraitTypesExact(items);
    if TraitTypes(items).Ok? {
      MissingTraitsExact(TraitTypes(items).value, required);
    }
  }

  /** The check passes exactly on truthy name, description and image, an
      array of attributes none of which is undefined or null, and every
      required trait type among them; attribute values are not looked at. */
  lemma ValidateOk(md: Json, required: seq<string>)
    ensures Validate(md, required).Ok? <==>
      !Nullish(md) && Truthy(Get(md, "name")) && Truthy(Get(md, "description")) && Truthy(Get(md, "image")) &&
      Get(md, "attributes").Arr? &&
      Present(Get(md, "attributes").items) &&
      (forall t | t in required :: Carries(Get(md, "attributes").items, t))
  {
    DescriptivePresent(md);
    if Get(md, "attributes").Arr? {
      TraitsPresent(Get(md, "attributes").items, required);
    }
  }

  /** Missing descriptive fields are all reported, whatever the attributes. */
  lemma FieldsBeforeAttributes(md: Json, required: seq<string>)
    requires !Nullish(md) && GenerateMetadata.MissingFields(md, DESCRIPTIVE) != []
    ensures Validate(md, required) ==
      Err("Missing required metadata fields: " + Join(GenerateMetadata.MissingFields(md, DESCRIPTIVE), ", "))
  {
  }

  /** A falsy name alone is reported on its own. */
  lemma OnlyNameMissing(md: Json, required: seq<string>)
    requires !Nullish(md) && !Truthy(Get(md, "name")) && Truthy(Get(md, "description")) && Truthy(Get(md, "image"))
    ensures Validate(md, required) == Err("Missing required metadata fields: name")
  {
    assert DESCRIPTIVE[1..] == ["description", "image"] && DESCRIPTIVE[1..][1..] == ["image"];
    assert GenerateMetadata.MissingFields(md, ["image"]) == [];
    assert GenerateMetadata.MissingFields(md, ["description", "image"]) == [];
    assert GenerateMetadata.MissingFields(md, DESCRIPTIVE) == ["name"];
    assert Join(["name"], ", ") == "name";
    assert "Missing required metadata fields: " + "name" == "Missing required metadata fields: name";
  }

  // -------------------------------------------------------- the generators

  /** `options = {}`: only an omitted argument takes the default. */
  function WithDefault(options: Json): Json {
    if options.Undefined? then Obj([]) else options
  }

  /** The object both generators build: the subject's name, the caller's
      description and image or the defaults, the attributes, and
      `{[idKey]: subject.id, createdAt, ...(options.properties || {})}`. */
  function Assembled(subject: Json, options: Json, phrase: string, image: string, idKey: string,
                     attrs: seq<Json>, clock: GenerateMetadata.Clock): Json {
    var props := Assign([(idKey, Get(subject, "id")), ("createdAt", Str(clock.iso))],
                        SpreadFields(Or(Get(options, "properties"), Obj([]))));
    Obj([("name", Get(subject, "name")),
         ("description", Or(Get(options, "description"), Str(Show(Get(subject, "name")) + phrase))),
         ("image", Or(Get(options, "image"), Str(image))),
         ("attributes", Arr(attrs)),
         ("properties", Obj(props))])
  }

  /** What the assembled object holds under each of its keys. */
  lemma AssembledFields(subject: Json, options: Json, phrase: string, image: string, idKey: string,
                        attrs: seq<Json>, clock: GenerateMetadata.Clock)
    ensures var md := Assembled(subject, options, phrase, image, idKey, attrs, clock);
      Get(md, "name") == Get(subject, "name") &&
      Get(md, "description") == Or(Get(options, "description"), Str(Show(Get(subject, "name")) + phrase)) &&
      Get(md, "image") == Or(Get(options, "image"), Str(image)) &&
      Get(md, "attributes") == Arr(attrs) &&
      Get(md, "properties") == Obj(Assign([(idKey, Get(subject, "id")), ("createdAt", Str(clock.iso))],
                                          SpreadFields(Or(Get(options, "properties"), Obj([])))))
  {
    var fields := Assembled(subject, options, phrase, image, idKey, attrs, clock).fields;
    assert |fields[0].0| == 4 && |fields[1].0| == 11 && |fields[2].0| == 5 && |fields[3].0| == 10 && |fields[4].0| == 10;
    assert fields[3].0[0] != fields[4].0[0];
    LookupAt(fields, "description", 1);
    LookupAt(fields, "image", 2);
    LookupAt(fields, "attributes", 3);
    LookupAt(fields, "properties", 4);
  }

  /** With non-empty defaults, the assembled object passes the check exactly
      when the subject's name is truthy, no attribute is undefined or null,
      and the attributes carry every required trait type. */
  lemma AssembledValid(subject: Json, options: Json, phrase: string, image: string, idKey: string,
                       attrs: seq<Json>, clock: GenerateMetadata.Clock, required: seq<string>)
    requires phrase != "" && image != ""
    ensures Validate(Assembled(subject, options, phrase, image, idKey, attrs, clock), required).Ok? <==>
      Truthy(Get(subject, "name")) && Present(attrs) &&
      (forall t | t in required :: Carries(attrs, t))
  {
    var md := Assembled(subject, options, phrase, image, idKey, attrs, clock);
    AssembledFields(subject, options, phrase, image, idKey, attrs, clock);
    ValidateOk(md, required);
  }

  // ------------------------------------------------------------ the update

  /** `news.some(newAttr => newAttr.trait_type === attr.trait_type)` */
  function SomeSameTrait(news: seq<Json>, attr: Json): Result<bool, string> {
    if |news| == 0 then Ok(false)
    else if Nullish(news[0]) then Err(ReadError(news[0], "trait_type"))
    else if Nullish(attr) then Err(ReadError(attr, "trait_type"))
    else if StrictEquals(Trait(news[0]), Trait(attr)) then Ok(true)
    else SomeSameTrait(news[1..], attr)
  }

  /** `olds.filter(attr => !news?.some(…))`: with no update attributes every
      stored one is kept; a value without `some` throws at the first call. */
  function Kept(olds: seq<Json>, news: Json): Result<seq<Json>, string> {
    if |olds| == 0 then Ok([])
    else if !Nullish(news) && !news.Arr? then Err("updates.attributes?.some is not a function")
    else
      var replaced := if Nullish(news) then Ok(false) else SomeSameTrait(news.items, olds[0]);
      if replaced.Err? then Err(replaced.error)
      else
        var rest := Kept(olds[1..], news);
        if rest.Err? then rest
        else Ok((if replaced.value then [] else [olds[0]]) + rest.value)
  }

  /** `[...(stored.attributes || []).filter(…), ...(updates.attributes || [])]` */
  function MergedAttributes(stored: Json, updates: Json): Result<seq<Json>, string> {
    var olds := Or(Get(stored, "attributes"), Arr([]));
    if !olds.Arr? then Err("(existingMetadata.attributes || []).filter is not a function")
    else
      var kept := Kept(olds.items, Get(updates, "attributes"));
      if kept.Err? then Err(kept.error)
      else
        var added := SpreadItems(Or(Get(updates, "attributes"), Arr([])));
        if added.Err? then Err(added.error) else Ok(kept.value + added.value)
  }

  /** The merged object of the update script, before its check. */
  function UpdatedFields(stored: Json, updates: Json, attrs: seq<Json>, clock: GenerateMetadata.Clock): seq<(string, Json)> {
    var props := Assign(SpreadFields(Get(stored, "properties")), SpreadFields(Get(updates, "properties")));
    Put(Put(Assign(SpreadFields(stored), SpreadFields(updates)),
      "attributes", Arr(attrs)),
      "properties", Obj(Put(props, "updatedAt", Str(clock.iso))))
  }

  /** `updateTemplateMetadata` / `updateEventMetadata` up to the save, given
      what the file holds (`{}` when it cannot be read): the merged metadata,
      which the save checks. */
  function Update(stored: Json, updates: Json, clock: GenerateMetadata.Clock, required: seq<string>): (r: Result<Json, string>)
    ensures r.Ok? ==> Validate(r.value, required).Ok?
  {
    if Nullish(stored) then Err(ReadError(stored, "attributes"))
    else if Nullish(updates) && !Or(Get(stored, "attributes"), Arr([])).Arr? then
      Err("(existingMetadata.attributes || []).filter is not a function")
    else if Nullish(updates) then Err(ReadError(updates, "attributes"))
    else
      var attrs := MergedAttributes(stored, updates);
      if attrs.Err? then Err(attrs.error)
      else
        var md := Obj(UpdatedFields(stored, updates, attrs.value, clock));
        var checked := Validate(md, required);
        if checked.Err? then Err(checked.error) else Ok(md)
  }

  // ------------------------------------------------------- merge properties

  /** Some update attribute has the trait type of `a`. */
  predicate Overridden(news: seq<Json>, a: Json) {
    exists u | u in news :: StrictEquals(Trait(u), Trait(a))
  }

  /** The stored attributes no update overrides, in their order. */
  function Unreplaced(olds: seq<Json>, news: seq<Json>): (r: seq<Json>)
    ensures forall a | a in r :: a in olds && !Overridden(news, a)
  {
    if |olds| == 0 then []
    else (if Overridden(news, olds[0]) then [] else [olds[0]]) + Unreplaced(olds[1..], news)
  }

  lemma {:induction false} SomeSameTraitExact(news: seq<Json>, attr: Json)
    requires !Nullish(attr) && Present(news)
    ensures SomeSameTrait(news, attr) == Ok(Overridden(news, attr))
  {
    if |news| > 0 {
      SomeSameTraitExact(news[1..], attr);
      assert forall u | u in news :: u == news[0] || u in news[1..];
    }
  }

  /** Over entries that are not undefined or null, the filter keeps exactly
      the stored attributes no update overrides. */
  lemma {:induction false} KeptIsUnreplaced(olds: seq<Json>, news: seq<Json>)
    requires Present(olds)
    requires Present(news)
    ensures Kept(olds, Arr(news)) == Ok(Unreplaced(olds, news))
  {
    if |olds| > 0 {
      SomeSameTraitExact(news, olds[0]);
      KeptIsUnreplaced(olds[1..], news);
    }
  }

  /** Every stored attribute that no update overrides survives. */
  lemma {:induction false} UnreplacedKeeps(olds: seq<Json>, news: seq<Json>)
    ensures forall a | a in olds && !Overridden(news, a) :: a in Unreplaced(olds, news)
  {
    if |olds| > 0 {
      UnreplacedKeeps(olds[1..], news);
      assert forall a | a in olds :: a == olds[0] || a in olds[1..];
    }
  }

  /** With no update attributes the stored ones stay as they are. */
  lemma {:induction false} KeptWithoutUpdates(olds: seq<Json>, news: Json)
    requires Nullish(news)
    ensures Kept(olds, news) == Ok(olds)
  {
    if |olds| > 0 {
      KeptWithoutUpdates(olds[1..], news);
      assert [olds[0]] + olds[1..] == olds;
    }
  }

  /** The merge is the unreplaced stored attributes followed by all the
      update's, so a replaced attribute moves to the end. */
  lemma MergedIsUnreplacedThenNew(stored: Json, updates: Json)
    requires Get(stored, "attributes").Arr? && Get(updates, "attributes").Arr?
    requires Present(Get(stored, "attributes").items)
    requires Present(Get(updates, "attributes").items)
    ensures MergedAttributes(stored, updates) ==
      Ok(Unreplaced(Get(stored, "attributes").items, Get(updates, "attributes").items) + Get(updates, "attributes").items)
  {
    KeptIsUnreplaced(Get(stored, "attributes").items, Get(updates, "attributes").items);
  }

  /** An update without attributes keeps the stored attribute list. */
  lemma MergedWithoutUpdates(stored: Json, updates: Json)
    requires Get(stored, "attributes").Arr? && Nullish(Get(updates, "attributes"))
    ensures MergedAttributes(stored, updates) == Ok(Get(stored, "attributes").items)
  {
    KeptWithoutUpdates(Get(stored, "attributes").items, Get(updates, "attributes"));
    assert Get(stored, "attributes").items + [] == Get(stored, "attributes").items;
  }

  // ------------------------------------------------------ update properties

  /** A successful update is the merged object built from the merged attributes. */
  lemma UpdateShape(stored: Json, updates: Json, clock: GenerateMetadata.Clock, required: seq<string>)
    requires Update(stored, updates, clock, required).Ok?
    ensures !Nullish(stored) && !Nullish(updates) && MergedAttributes(stored, updates).Ok?
    ensures Update(stored, updates, clock, required) ==
      Ok(Obj(UpdatedFields(stored, updates, MergedAttributes(stored, updates).value, clock)))
  {
  }

  /** Reading undefined or null stored metadata throws before anything else. */
  lemma UpdateNeedsStored(stored: Json, updates: Json, clock: GenerateMetadata.Clock, required: seq<string>)
    requires Nullish(stored)
    ensures Update(stored, updates, clock, required) == Err(ReadError(stored, "attributes"))
  {
  }

  /** The values the merged object gives its two rebuilt keys. */
  lemma UpdatedFieldsValues(stored: Json, updates: Json, attrs: seq<Json>, clock: GenerateMetadata.Clock)
    ensures var fields := UpdatedFields(stored, updates, attrs, clock);
      Lookup(fields, "attributes") == Arr(attrs) &&
      Lookup(fields, "properties") ==
        Obj(Put(Assign(SpreadFields(Get(stored, "properties")), SpreadFields(Get(updates, "properties"))),
                "updatedAt", Str(clock.iso)))
  {
    var props := Assign(SpreadFields(Get(stored, "properties")), SpreadFields(Get(updates, "properties")));
    var f1 := Put(Assign(SpreadFields(stored), SpreadFields(updates)), "attributes", Arr(attrs));
    var f2 := Put(f1, "properties", Obj(Put(props, "updatedAt", Str(clock.iso))));
    assert "attributes"[0] != "properties"[0];
    PutOther(f1, "properties", f2, "attributes");
  }

  /** Every other key takes the update's value when the update has it, and
      the stored value otherwise. */
  lemma UpdateOtherFields(stored: Json, updates: Json, clock: GenerateMetadata.Clock, required: seq<string>, k: string)
    requires Update(stored, updates, clock, required).Ok?
    requires stored.Obj? && updates.Obj? && UniqueKeys(updates.fields)
    requires k != "attributes" && k != "properties"
    ensures Get(Update(stored, updates, clock, required).value, k) ==
      if Has(updates, k) then Get(updates, k) else Get(stored, k)
  {
    UpdateShape(stored, updates, clock, required);
    var attrs := MergedAttributes(stored, updates).value;
    var props := Assign(SpreadFields(Get(stored, "properties")), SpreadFields(Get(updates, "properties")));
    var f0 := Assign(SpreadFields(stored), SpreadFields(updates));
    var f1 := Put(f0, "attributes", Arr(attrs));
    var f2 := Put(f1, "properties", Obj(Put(props, "updatedAt", Str(clock.iso))));
    PutOther(f1, "properties", f2, k);
    PutOther(f0, "attributes", f1, k);
    if Has(updates, k) {
      AssignOverrides(SpreadFields(stored), updates.fields, k);
    }
  }

  /** The update's own attributes end the merged list. */
  lemma MergedEndsWithNew(stored: Json, updates: Json)
    requires MergedAttributes(stored, updates).Ok? && Get(updates, "attributes").Arr?
    ensures forall u | u in Get(updates, "attributes").items :: u in MergedAttributes(stored, updates).value
  {
  }

  /** A successful update has checked every merged attribute, the update's
      own among them. */
  lemma UpdatedNewPresent(stored: Json, updates: Json, clock: GenerateMetadata.Clock, required: seq<string>)
    requires Update(stored, updates, clock, required).Ok? && Get(updates, "attributes").Arr?
    ensures Present(Get(updates, "attributes").items)
  {
    UpdateShape(stored, updates, clock, required);
    var attrs := MergedAttributes(stored, updates).value;
    UpdatedFieldsValues(stored, updates, attrs, clock);
    ValidateOk(Update(stored, updates, clock, required).value, required);
    MergedEndsWithNew(stored, updates);
  }

  /** The updated attributes: the stored attributes no update overrides,
      then every attribute of the update. */
  lemma UpdateAttributes(stored: Json, updates: Json, clock: GenerateMetadata.Clock, required: seq<string>)
    requires Update(stored, updates, clock, required).Ok?
    requires Get(stored, "attributes").Arr? && Get(updates, "attributes").Arr?
    requires Present(Get(stored, "attributes").items)
    ensures Get(Update(stored, updates, clock, required).value, "attributes") ==
      Arr(Unreplaced(Get(stored, "attributes").items, Get(updates, "attributes").items) + Get(updates, "attributes").items)
  {
    UpdateShape(stored, updates, clock, required);
    UpdatedFieldsValues(stored, updates, MergedAttributes(stored, updates).value, clock);
    UpdatedNewPresent(stored, updates, clock, required);
    MergedIsUnreplacedThenNew(stored, updates);
  }

  /** The merged `properties` carry the time of the update, and each
      property of the update's `properties` wins over the stored one. */
  lemma UpdateProperties(stored: Json, updates: Json, clock: GenerateMetadata.Clock, required: seq<string>, k: string)
    requires Update(stored, updates, clock, required).Ok?
    requires Get(stored, "properties").Obj?
    requires Get(updates, "properties").Obj? && UniqueKeys(Get(updates, "properties").fields)
    ensures var props := Get(Update(stored, updates, clock, required).value, "properties");
      Get(props, "updatedAt") == Str(clock.iso) &&
      (k != "updatedAt" ==>
        Get(props, k) == if Has(Get(updates, "properties"), k) then Get(Get(updates, "properties"), k)
                         else Get(Get(stored, "properties"), k))
  {
    UpdateShape(stored, updates, clock, required);
    UpdatedFieldsValues(stored, updates, MergedAttributes(stored, updates).value, clock);
    if Has(Get(updates, "properties"), k) {
      AssignOverrides(Get(stored, "properties").fields, Get(updates, "properties").fields, k);
    }
  }
}
