/**
 * `validateAndRepairMetadata`: the stored metadata is checked for its four
 * required fields and for incomplete attributes; every problem found becomes
 * a repair entry, and on request the 'add' repairs are written back through
 * the updater. Reading the stored file is left to the caller, as in
 * `UpdateMetadata`.
 */
module RepairMetadata {
  import opened Wrappers
  import opened Js
  import GenerateMetadata
  import UpdateMetadata

  /** One entry of `validationResult.repairs`. */
  datatype Repair =
    | Add(field: string, value: Json)       // { field, action: 'add', value }
    | Fix(field: string, details: string)   // { field, action: 'fix', details }

  /** `validationResult`; `repaired` is `repairedMetadata` (the metadata the
      updater returned), when it was set. */
  datatype Report = Report(valid: bool, repairs: seq<Repair>, warnings: seq<string>, repaired: Option<Json>)

  /** The value an 'add' repair supplies for a missing field. */
  function DefaultFor(field: string): Json {
    if field == "attributes" then Arr([]) else Str("Default " + field)
  }

  /** The 'fix' repair reported for the attribute at `index`. */
  function FixAt(index: nat): Repair {
    Fix("attributes[" + NatToString(index) + "]", "Missing trait_type or value")
  }

  /** The repairs the required-field pass pushes for `fields`, in order. */
  function RequiredRepairs(md: Json, fields: seq<string>): seq<Repair> {
    if |fields| == 0 then []
    else (if Truthy(Get(md, fields[0])) then [] else [Add(fields[0], DefaultFor(fields[0]))]) +
         RequiredRepairs(md, fields[1..])
  }

  /** The repairs the attribute pass pushes from index `from` on: reading
      `trait_type` of an undefined or null entry throws. */
  function AttributeRepairs(items: seq<Json>, from: nat): Result<seq<Repair>, string>
    decreases |items| - from
  {
    if from >= |items| then Ok([])
    else if Nullish(items[from]) then Err(ReadError(items[from], "trait_type"))
    else
      var rest := AttributeRepairs(items, from + 1);
      if rest.Err? then rest
      else Ok((if GenerateMetadata.GoodAttribute(items[from]) then [] else [FixAt(from)]) + rest.value)
  }

  /** The attribute pass, which runs only over an array. */
  function AttributePass(md: Json): Result<seq<Repair>, string> {
    var attributes := Get(md, "attributes");
    if attributes.Arr? then AttributeRepairs(attributes.items, 0) else Ok([])
  }

  /** The `repairs` object of the auto-repair: every 'add' repair's value
      assigned under its field name, first to last. */
  function AddedFields(repairs: seq<Repair>): seq<(string, Json)>
    decreases |repairs|
  {
    if |repairs| == 0 then []
    else
      var n := |repairs| - 1;
      var before := AddedFields(repairs[..n]);
      if repairs[n].Add? then Put(before, repairs[n].field, repairs[n].value) else before
  }

  /** `p` put in front of the repairs of a pass that did not throw. */
  function Prepend(p: seq<Repair>, r: Result<seq<Repair>, string>): Result<seq<Repair>, string> {
    if r.Err? then r else Ok(p + r.value)
  }

  lemma PrependStep(p: seq<Repair>, q: seq<Repair>, r: Result<seq<Repair>, string>)
    ensures Prepend(p, Prepend(q, r)) == Prepend(p + q, r)
  {
    if r.Ok? {
      assert p + (q + r.value) == (p + q) + r.value;
    }
  }

  /** `validateAndRepairMetadata(type, id, options)` given the stored metadata
      (`null` when there is none) and the clock the updater reads. `options`
      defaults to `{}` when undefined. */
  function Plan(t: string, id: Json, stored: Json, options: Json, clock: GenerateMetadata.Clock)
    : Result<Report, string>
  {
    var existing := UpdateMetadata.Existing(t, stored);
    if existing.Err? then Err(existing.error) else Review(t, id, stored, options, clock)
  }

  /** The passes over the stored metadata, which must be there. */
  function Review(t: string, id: Json, stored: Json, options: Json, clock: GenerateMetadata.Clock)
    : Result<Report, string>
  {
    if !Truthy(stored) then Err("No metadata found for " + t + " " + Show(id))
    else
      var repairs := Repairs(stored);
      if repairs.Err? then Err(repairs.error)
      else Finish(t, id, stored, options, clock, repairs.value)
  }

  /** The repairs of both passes, the required fields' first. */
  function Repairs(md: Json): Result<seq<Repair>, string> {
    Prepend(RequiredRepairs(md, GenerateMetadata.REQUIRED), AttributePass(md))
  }

  /** The report on the repairs found, after the auto-repair when it is asked for. */
  function Finish(t: string, id: Json, stored: Json, options: Json, clock: GenerateMetadata.Clock, repairs: seq<Repair>)
    : Result<Report, string>
  {
    if |repairs| == 0 then Ok(Report(true, repairs, [], None))
    else if options.Null? then Err(ReadError(options, "autoRepair"))
    else if !Truthy(Get(options, "autoRepair")) || |AddedFields(repairs)| == 0 then
      Ok(Report(false, repairs, [], None))
    else
      var repaired := UpdateMetadata.Update(t, id, stored, Obj(AddedFields(repairs)), Undefined, clock);
      if repaired.Err? then Err(repaired.error)
      else Ok(Report(false, repairs, [], Some(repaired.value)))
  }

  /** The required-field pass: every falsy field pushes an 'add' repair and
      clears the flag. */
  method CheckRequired(metadata: Json, required: seq<string>, valid0: bool, repairs0: seq<Repair>)
    returns (valid: bool, repairs: seq<Repair>)
    requires valid0 <==> |repairs0| == 0
    ensures repairs == repairs0 + RequiredRepairs(metadata, required)
    ensures valid <==> |repairs| == 0
  {
    valid, repairs := valid0, repairs0;
    var i := 0;
    while i < |required|
      invariant 0 <= i <= |required|
      invariant repairs + RequiredRepairs(metadata, required[i..]) == repairs0 + RequiredRepairs(metadata, required)
      invariant valid <==> |repairs| == 0
    {
      var field := required[i];
      assert required[i..] == [field] + required[i + 1..];
      if !Truthy(Get(metadata, field)) {
        valid := false;
        repairs := repairs + [Add(field, if field == "attributes" then Arr([]) else Str("Default " + field))];
      }
      i := i + 1;
    }
    assert required[i..] == [];
  }

  /** The attribute pass: every incomplete attribute pushes a 'fix' repair
      and clears the flag; an undefined or null one throws. */
  method CheckAttributes(items: seq<Json>, valid0: bool, repairs0: seq<Repair>)
    returns (valid: bool, r: Result<seq<Repair>, string>)
    requires valid0 <==> |repairs0| == 0
    ensures r == Prepend(repairs0, AttributeRepairs(items, 0))
    ensures r.Ok? ==> (valid <==> |r.value| == 0)
  {
    valid := valid0;
    var repairs := repairs0;
    var index := 0;
    while index < |items|
      invariant 0 <= index <= |items|
      invariant Prepend(repairs0, AttributeRepairs(items, 0)) == Prepend(repairs, AttributeRepairs(items, index))
      invariant valid <==> |repairs| == 0
    {
      var attr := items[index];
      if Nullish(attr) {
        return valid, Err(ReadError(attr, "trait_type"));
      }
      var rest := AttributeRepairs(items, index + 1);
      if !Truthy(Get(attr, "trait_type")) || !Truthy(Get(attr, "value")) {
        valid := false;
        PrependStep(repairs, [FixAt(index)], rest);
        repairs := repairs + [Fix("attributes[" + NatToString(index) + "]", "Missing trait_type or value")];
      } else {
        PrependStep(repairs, [], rest);
        assert repairs + [] == repairs;
      }
      index := index + 1;
    }
    assert repairs + [] == repairs;
    r := Ok(repairs);
  }

  /** The `repairs` object the auto-repair builds. */
  method CollectAdds(repairs: seq<Repair>) returns (fields: seq<(string, Json)>)
    ensures fields == AddedFields(repairs)
  {
    fields := [];
    var j := 0;
    while j < |repairs|
      invariant 0 <= j <= |repairs|
      invariant fields == AddedFields(repairs[..j])
    {
      assert repairs[..j + 1][..j] == repairs[..j];
      if repairs[j].Add? {
        fields := Put(fields, repairs[j].field, repairs[j].value);
      }
      j := j + 1;
    }
    assert repairs[..j] == repairs;
  }

  /** The script as it runs: the result object's flag and list filled in by
      the two passes, then the auto-repair. */
  method ValidateAndRepair(t: string, id: Json, stored: Json, options: Json, clock: GenerateMetadata.Clock)
    returns (r: Result<Report, string>)
    ensures r == Plan(t, id, stored, options, clock)
  {
    var existing := UpdateMetadata.Existing(t, stored);
    if existing.Err? {
      return Err(existing.error);
    }
    r := ReviewStored(t, id, existing.value, options, clock);
  }

  method ReviewStored(t: string, id: Json, metadata: Json, options: Json, clock: GenerateMetadata.Clock)
    returns (r: Result<Report, string>)
    ensures r == Review(t, id, metadata, options, clock)
  {
    if !Truthy(metadata) {
      return Err("No metadata found for " + t + " " + Show(id));
    }
    var valid, repairs := FindRepairs(metadata);
    if repairs.Err? {
      return Err(repairs.error);
    }
    r := AutoRepair(t, id, metadata, options, clock, valid, repairs.value);
  }

  /** Both passes over the metadata, filling in the flag and the list. */
  method FindRepairs(metadata: Json) returns (valid: bool, r: Result<seq<Repair>, string>)
    ensures r == Repairs(metadata)
    ensures r.Ok? ==> (valid <==> |r.value| == 0)
  {
    var repairs;
    valid, repairs := CheckRequired(metadata, GenerateMetadata.REQUIRED, true, []);
    assert repairs == RequiredRepairs(metadata, GenerateMetadata.REQUIRED);
    var attributes := Get(metadata, "attributes");
    if attributes.Arr? {
      valid, r := CheckAttributes(attributes.items, valid, repairs);
    } else {
      assert repairs == repairs + [];
      r := Ok(repairs);
    }
  }

  /** The auto-repair: when the flag is cleared and `options.autoRepair` is
      set, the 'add' repairs are written back through the updater. */
  method AutoRepair(t: string, id: Json, stored: Json, options: Json, clock: GenerateMetadata.Clock,
                    valid: bool, repairs: seq<Repair>)
    returns (r: Result<Report, string>)
    requires valid <==> |repairs| == 0
    ensures r == Finish(t, id, stored, options, clock, repairs)
  {
    if !valid {
      if options.Null? {
        return Err(ReadError(options, "autoRepair"));
      }
      if Truthy(Get(options, "autoRepair")) {
        var fields := CollectAdds(repairs);
        if |fields| > 0 {
          var repaired := UpdateMetadata.Update(t, id, stored, Obj(fields), Undefined, clock);
          if repaired.Err? {
            return Err(repaired.error);
          }
          return Ok(Report(valid, repairs, [], Some(repaired.value)));
        }
      }
    }
    return Ok(Report(valid, repairs, [], None));
  }

  // ---------------------------------------------------------------- facts

  /** The 'add' repairs for a list of missing fields. */
  function AddsFor(missing: seq<string>): seq<Repair> {
    seq(|missing|, i requires 0 <= i < |missing| => Add(missing[i], DefaultFor(missing[i])))
  }

  /** The required-field pass reports exactly the fields the generator's
      check finds missing, in the same order, each with its default. */
  lemma {:induction false} RequiredMatchesMissing(md: Json, fields: seq<string>)
    ensures RequiredRepairs(md, fields) == AddsFor(GenerateMetadata.MissingFields(md, fields))
  {
    if |fields| > 0 {
      RequiredMatchesMissing(md, fields[1..]);
      var head := if Truthy(Get(md, fields[0])) then [] else [fields[0]];
      var tail := GenerateMetadata.MissingFields(md, fields[1..]);
      assert GenerateMetadata.MissingFields(md, fields) == head + tail;
      assert AddsFor(head + tail) == AddsFor(head) + AddsFor(tail);
    }
  }

  /** The attribute pass throws exactly when some entry is undefined or null. */
  lemma {:induction false} AttributeRepairsThrow(items: seq<Json>, from: nat)
    ensures AttributeRepairs(items, from).Err? <==> exists i :: from <= i < |items| && Nullish(items[i])
    decreases |items| - from
  {
    if from < |items| {
      AttributeRepairsThrow(items, from + 1);
      if exists i :: from <= i < |items| && Nullish(items[i]) {
        var i :| from <= i < |items| && Nullish(items[i]);
        if i > from {
          assert exists j :: from + 1 <= j < |items| && Nullish(items[j]);
        }
      }
    }
  }

  /** The attribute pass finds nothing to fix exactly when the generator's
      attribute check passes. */
  lemma {:induction false} AttributeRepairsAgree(items: seq<Json>, from: nat)
    ensures AttributeRepairs(items, from) == Ok([]) <==> GenerateMetadata.CheckAttributeList(items, from).Ok?
    decreases |items| - from
  {
    if from < |items| {
      AttributeRepairsAgree(items, from + 1);
    }
  }

  /** Every incomplete attribute gets its 'fix' repair, and every repair of the
      pass is the 'fix' of an incomplete attribute. */
  lemma {:induction false} AttributeFixesExact(items: seq<Json>, from: nat)
    requires AttributeRepairs(items, from).Ok?
    ensures forall i | from <= i < |items| && !GenerateMetadata.GoodAttribute(items[i]) ::
      FixAt(i) in AttributeRepairs(items, from).value
    ensures forall r | r in AttributeRepairs(items, from).value ::
      exists i :: from <= i < |items| && !GenerateMetadata.GoodAttribute(items[i]) && r == FixAt(i)
    decreases |items| - from
  {
    if from < |items| {
      AttributeFixesExact(items, from + 1);
      var rest := AttributeRepairs(items, from + 1).value;
      var head := if GenerateMetadata.GoodAttribute(items[from]) then [] else [FixAt(from)];
      var all := AttributeRepairs(items, from).value;
      assert all == head + rest;
      forall i | from <= i < |items| && !GenerateMetadata.GoodAttribute(items[i])
        ensures FixAt(i) in all
      {
        if i == from {
          assert FixAt(i) in head;
        } else {
          assert FixAt(i) in rest;
        }
      }
      forall r | r in all
        ensures exists i :: from <= i < |items| && !GenerateMetadata.GoodAttribute(items[i]) && r == FixAt(i)
      {
        if r in head {
          assert from < |items| && !GenerateMetadata.GoodAttribute(items[from]) && r == FixAt(from);
        } else {
          assert r in rest;
          var i :| from + 1 <= i < |items| && !GenerateMetadata.GoodAttribute(items[i]) && r == FixAt(i);
          assert from <= i;
        }
      }
    }
  }

  /** Metadata the generator's check accepts needs no repair. */
  lemma CheckedNeedsNoRepair(t: string, id: Json, stored: Json, options: Json, clock: GenerateMetadata.Clock)
    requires ToUpper(t) in {"NFT", "TEMPLATE", "EVENT"}
    requires GenerateMetadata.CheckMetadata(stored).Ok?
    ensures Plan(t, id, stored, options, clock) == Ok(Report(true, [], [], None))
  {
    GenerateMetadata.CheckMetadataOk(stored);
    GenerateMetadata.RequiredPresent(stored);
    RequiredMatchesMissing(stored, GenerateMetadata.REQUIRED);
    var items := Get(stored, "attributes").items;
    GenerateMetadata.CheckAttributeListOk(items, 0);
    AttributeRepairsAgree(items, 0);
    assert Repairs(stored) == Ok([]);
  }

  /** With an array of attributes, metadata needs no repair only when the
      generator's check accepts it. */
  lemma NoRepairIsChecked(t: string, id: Json, stored: Json, options: Json, clock: GenerateMetadata.Clock)
    requires Plan(t, id, stored, options, clock).Ok? && Plan(t, id, stored, options, clock).value.valid
    requires Get(stored, "attributes").Arr?
    ensures GenerateMetadata.CheckMetadata(stored).Ok?
  {
    var repairs := Repairs(stored).value;
    assert |repairs| == 0;
    var required := RequiredRepairs(stored, GenerateMetadata.REQUIRED);
    var fixes := AttributePass(stored).value;
    assert required + fixes == repairs;
    RequiredMatchesMissing(stored, GenerateMetadata.REQUIRED);
    assert |GenerateMetadata.MissingFields(stored, GenerateMetadata.REQUIRED)| == |required|;
    GenerateMetadata.RequiredPresent(stored);
    AttributeRepairsAgree(Get(stored, "attributes").items, 0);
    GenerateMetadata.CheckMetadataOk(stored);
  }

  /** Truthy attributes that are not an array slip through: the pass reports
      nothing to repair while the generator's check refuses the metadata. */
  lemma NonArrayAttributesPass(t: string, id: Json, stored: Json, options: Json, clock: GenerateMetadata.Clock)
    requires ToUpper(t) in {"NFT", "TEMPLATE", "EVENT"}
    requires Truthy(Get(stored, "name")) && Truthy(Get(stored, "description")) && Truthy(Get(stored, "image"))
    requires Truthy(Get(stored, "attributes")) && !Get(stored, "attributes").Arr?
    ensures Plan(t, id, stored, options, clock) == Ok(Report(true, [], [], None))
    ensures GenerateMetadata.CheckMetadata(stored).Err?
  {
    GenerateMetadata.RequiredPresent(stored);
    RequiredMatchesMissing(stored, GenerateMetadata.REQUIRED);
    GenerateMetadata.CheckMetadataOk(stored);
    assert Repairs(stored) == Ok([]);
  }

  /** The `repairs` object of a list of 'add' repairs holds every listed
      field's default, and nothing else. */
  lemma {:induction false} AddedFieldsOfAdds(missing: seq<string>)
    ensures forall f :: Lookup(AddedFields(AddsFor(missing)), f) == if f in missing then DefaultFor(f) else Undefined
    ensures |missing| > 0 ==> |AddedFields(AddsFor(missing))| > 0
    decreases |missing|
  {
    if |missing| > 0 {
      var n := |missing| - 1;
      assert AddsFor(missing)[..n] == AddsFor(missing[..n]);
      AddedFieldsOfAdds(missing[..n]);
      assert forall f :: f in missing <==> f in missing[..n] || f == missing[n];
    }
  }

  /** The attributes the repaired metadata ends up with: the stored ones when
      truthy, else the empty list the repair adds. */
  function RepairedAttributes(stored: Json): seq<Json> {
    if Truthy(Get(stored, "attributes")) && Get(stored, "attributes").Arr? then Get(stored, "attributes").items else []
  }

  /** The `repairs` object of the required-field pass: the default of each
      falsy required field, and nothing for the truthy ones. */
  lemma RepairFieldValue(stored: Json, f: string)
    requires f in GenerateMetadata.REQUIRED
    ensures var fields := AddedFields(AddsFor(GenerateMetadata.MissingFields(stored, GenerateMetadata.REQUIRED)));
      Get(Obj(fields), f) == (if Truthy(Get(stored, f)) then Undefined else DefaultFor(f)) &&
      Truthy(Or(Get(Obj(fields), f), Get(stored, f)))
  {
    var missing := GenerateMetadata.MissingFields(stored, GenerateMetadata.REQUIRED);
    GenerateMetadata.MissingFieldsExact(stored, GenerateMetadata.REQUIRED);
    AddedFieldsOfAdds(missing);
    assert |"Default " + f| > 0;
  }

  /** The attribute merge of the repair keeps complete stored attributes, or
      starts from the empty list the repair adds. */
  lemma RepairMerge(stored: Json, updates: Json)
    requires Get(updates, "attributes") == if Truthy(Get(stored, "attributes")) then Undefined else Arr([])
    requires !Truthy(Get(stored, "attributes")) || Get(stored, "attributes").Arr?
    ensures UpdateMetadata.MergeAttributes(Or(Get(stored, "attributes"), Arr([])), Or(Get(updates, "attributes"), Arr([])))
      == Ok(RepairedAttributes(stored))
  {
  }

  /** Truthy descriptive fields after the merge and complete attributes pass the check. */
  lemma MergedPassesCheck(stored: Json, updates: Json, attrs: seq<Json>, clock: GenerateMetadata.Clock)
    requires Truthy(Or(Get(updates, "name"), Get(stored, "name")))
    requires Truthy(Or(Get(updates, "description"), Get(stored, "description")))
    requires Truthy(Or(Get(updates, "image"), Get(stored, "image")))
    requires forall a | a in attrs :: GenerateMetadata.GoodAttribute(a)
    ensures GenerateMetadata.CheckMetadata(Obj(UpdateMetadata.UpdatedFields(stored, updates, attrs, clock))).Ok?
  {
    var md := Obj(UpdateMetadata.UpdatedFields(stored, updates, attrs, clock));
    UpdateMetadata.UpdatedFieldsValues(stored, updates, attrs, clock);
    GenerateMetadata.CheckMetadataOk(md);
  }

  /** The metadata the auto-repair's update builds passes the generator's
      check when the stored attributes are complete or missing. */
  lemma RepairedPasses(stored: Json, clock: GenerateMetadata.Clock)
    requires !Truthy(Get(stored, "attributes")) ||
      (Get(stored, "attributes").Arr? && forall a | a in Get(stored, "attributes").items :: GenerateMetadata.GoodAttribute(a))
    ensures var fields := AddedFields(AddsFor(GenerateMetadata.MissingFields(stored, GenerateMetadata.REQUIRED)));
      GenerateMetadata.CheckMetadata(Obj(UpdateMetadata.UpdatedFields(stored, Obj(fields), RepairedAttributes(stored), clock))).Ok?
  {
    var updates := Obj(AddedFields(AddsFor(GenerateMetadata.MissingFields(stored, GenerateMetadata.REQUIRED))));
    RepairFieldValue(stored, "name");
    RepairFieldValue(stored, "description");
    RepairFieldValue(stored, "image");
    MergedPassesCheck(stored, updates, RepairedAttributes(stored), clock);
  }

  /** The update the auto-repair sends fills every missing required field
      with its default and keeps the others; with complete stored attributes
      it is accepted. */
  lemma RepairUpdateAccepted(t: string, id: Json, stored: Json, clock: GenerateMetadata.Clock)
    requires ToUpper(t) in {"NFT", "TEMPLATE", "EVENT"}
    requires stored.Obj?
    requires !Truthy(Get(stored, "attributes")) ||
      (Get(stored, "attributes").Arr? && forall a | a in Get(stored, "attributes").items :: GenerateMetadata.GoodAttribute(a))
    ensures var fields := AddedFields(AddsFor(GenerateMetadata.MissingFields(stored, GenerateMetadata.REQUIRED)));
      var md := Obj(UpdateMetadata.UpdatedFields(stored, Obj(fields), RepairedAttributes(stored), clock));
      UpdateMetadata.Update(t, id, stored, Obj(fields), Undefined, clock) == Ok(md) &&
      GenerateMetadata.CheckMetadata(md).Ok?
  {
    var updates := Obj(AddedFields(AddsFor(GenerateMetadata.MissingFields(stored, GenerateMetadata.REQUIRED))));
    RepairFieldValue(stored, "attributes");
    RepairMerge(stored, updates);
    RepairedPasses(stored, clock);
    UpdateMetadata.UpdateAccepts(t, id, stored, updates, Undefined, clock, RepairedAttributes(stored));
  }

  /** In the repaired metadata, a missing name, description or image is the
      default and a present one is kept. */
  lemma RepairedField(stored: Json, clock: GenerateMetadata.Clock, f: string)
    requires f == "name" || f == "description" || f == "image"
    ensures var fields := AddedFields(AddsFor(GenerateMetadata.MissingFields(stored, GenerateMetadata.REQUIRED)));
      var md := Obj(UpdateMetadata.UpdatedFields(stored, Obj(fields), RepairedAttributes(stored), clock));
      Get(md, f) == if Truthy(Get(stored, f)) then Get(stored, f) else DefaultFor(f)
  {
    var updates := Obj(AddedFields(AddsFor(GenerateMetadata.MissingFields(stored, GenerateMetadata.REQUIRED))));
    RepairFieldValue(stored, f);
    UpdateMetadata.UpdatedFieldsValues(stored, updates, RepairedAttributes(stored), clock);
  }

  /** The attribute pass over complete (or absent) attributes finds nothing. */
  lemma CompleteAttributesNoFix(stored: Json)
    requires !Truthy(Get(stored, "attributes")) ||
      (Get(stored, "attributes").Arr? && forall a | a in Get(stored, "attributes").items :: GenerateMetadata.GoodAttribute(a))
    ensures AttributePass(stored) == Ok([])
  {
    if Get(stored, "attributes").Arr? {
      var items := Get(stored, "attributes").items;
      GenerateMetadata.CheckAttributeListOk(items, 0);
      AttributeRepairsAgree(items, 0);
    }
  }

  /** With `autoRepair`, stored metadata that lacks required fields but whose
      attributes are complete (or absent) is reported invalid with one 'add'
      repair per missing field, and repaired into metadata the generator's
      check accepts. */
  lemma AutoRepairRestores(t: string, id: Json, stored: Json, options: Json, clock: GenerateMetadata.Clock)
    requires ToUpper(t) in {"NFT", "TEMPLATE", "EVENT"}
    requires stored.Obj?
    requires !options.Null? && Truthy(Get(options, "autoRepair"))
    requires GenerateMetadata.MissingFields(stored, GenerateMetadata.REQUIRED) != []
    requires !Truthy(Get(stored, "attributes")) ||
      (Get(stored, "attributes").Arr? && forall a | a in Get(stored, "attributes").items :: GenerateMetadata.GoodAttribute(a))
    ensures var missing := GenerateMetadata.MissingFields(stored, GenerateMetadata.REQUIRED);
      var md := Obj(UpdateMetadata.UpdatedFields(stored, Obj(AddedFields(AddsFor(missing))), RepairedAttributes(stored), clock));
      Plan(t, id, stored, options, clock) == Ok(Report(false, AddsFor(missing), [], Some(md))) &&
      GenerateMetadata.CheckMetadata(md).Ok?
  {
    var missing := GenerateMetadata.MissingFields(stored, GenerateMetadata.REQUIRED);
    RequiredMatchesMissing(stored, GenerateMetadata.REQUIRED);
    CompleteAttributesNoFix(stored);
    assert AddsFor(missing) + [] == AddsFor(missing);
    assert Repairs(stored) == Ok(AddsFor(missing));
    AddedFieldsOfAdds(missing);
    RepairUpdateAccepted(t, id, stored, clock);
    assert Plan(t, id, stored, options, clock) == Finish(t, id, stored, options, clock, AddsFor(missing));
  }
}
