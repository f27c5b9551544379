/**
 * The Apple Wallet pass manager: an event pass is a deep copy of the EVENT
 * template, filled in field by field from the event's data and the token id.
 * The copy is a value here, so filling it in never changes the template.
 * The team identifier the template reads from the environment is a
 * parameter; `None` is an unset variable, which the copy drops.
 */
module PassManager {
  import opened Wrappers
  import opened Js

  /** `{ key, label, value }` */
  datatype PassField = PassField(key: string, caption: string, value: Json)

  datatype Generic = Generic(
    primaryFields: seq<PassField>, secondaryFields: seq<PassField>,
    auxiliaryFields: seq<PassField>, backFields: seq<PassField>)

  /** A pass; the template has no serial number. */
  datatype Pass = Pass(
    formatVersion: nat, passTypeIdentifier: string, teamIdentifier: Option<string>,
    backgroundColor: string, foregroundColor: string, labelColor: string,
    serialNumber: Option<string>, generic: Generic)

  const TERMS := "This pass must be presented at check-in."

  /** `PASS_TEMPLATES.EVENT`, for the team id in the environment. */
  function EventTemplate(appleTeamId: Option<string>): (t: Pass)
    ensures t.serialNumber.None? && t.teamIdentifier == appleTeamId
    ensures |t.generic.primaryFields| == 1 && |t.generic.secondaryFields| == 2
    ensures |t.generic.auxiliaryFields| == 2 && |t.generic.backFields| == 2
    ensures t.generic.backFields[1].value == Str(TERMS)
  {
    Pass(1, "pass.com.wavex.event", appleTeamId, "rgb(48, 48, 48)", "rgb(255, 255, 255)", "rgb(255, 255, 255)",
         None,
         Generic(
           [PassField("event", "EVENT", Str(""))],
           [PassField("date", "DATE", Str("")), PassField("time", "TIME", Str(""))],
           [PassField("location", "LOCATION", Str("")), PassField("tokenId", "TOKEN ID", Str(""))],
           [PassField("benefits", "AVAILABLE BENEFITS", Str("")), PassField("terms", "TERMS", Str(TERMS))]))
  }

  /** The values of a list of fields. */
  function Values(fields: seq<PassField>): (vs: seq<Json>)
    ensures |vs| == |fields| && forall i :: 0 <= i < |fields| ==> vs[i] == fields[i].value
  {
    seq(|fields|, i requires 0 <= i < |fields| => fields[i].value)
  }

  /** The keys and labels of a list of fields: what filling in leaves alone. */
  function Captions(fields: seq<PassField>): (cs: seq<(string, string)>)
    ensures |cs| == |fields| && forall i :: 0 <= i < |fields| ==> cs[i] == (fields[i].key, fields[i].caption)
  {
    seq(|fields|, i requires 0 <= i < |fields| => (fields[i].key, fields[i].caption))
  }

  /** `fields[i].value = v` */
  function SetValue(fields: seq<PassField>, i: nat, v: Json): (r: seq<PassField>)
    requires i < |fields|
    ensures Captions(r) == Captions(fields)
    ensures Values(r) == Values(fields)[i := v]
  {
    fields[i := fields[i].(value := v)]
  }

  // ------------------------------------------------------------ benefits

  /** `` `${b.name}: ${b.value} ${b.unit}` `` for a benefit that is not null
      or undefined. */
  function Line(b: Json): string {
    Show(Get(b, "name")) + ": " + Show(Get(b, "value")) + " " + Show(Get(b, "unit"))
  }

  /** The lines of `benefits.map(...)`: the first null or undefined benefit
      throws when its name is read. */
  function Lines(items: seq<Json>): (r: Result<seq<string>, string>)
    ensures r.Ok? <==> forall i :: 0 <= i < |items| ==> !Nullish(items[i])
    ensures r.Ok? ==> |r.value| == |items| && forall i :: 0 <= i < |items| ==> r.value[i] == Line(items[i])
    ensures r.Err? ==>
      exists k :: 0 <= k < |items| && Nullish(items[k]) &&
        (forall j :: 0 <= j < k ==> !Nullish(items[j])) && r.error == ReadError(items[k], "name")
  {
    if |items| == 0 then Ok([])
    else if Nullish(items[0]) then Err(ReadError(items[0], "name"))
    else
      match Lines(items[1..])
      case Err(e) =>
        assert forall j :: 1 <= j < |items| ==> items[1..][j - 1] == items[j];
        Err(e)
      case Ok(rest) => Ok([Line(items[0])] + rest)
  }

  /** `eventData.benefits.map(...).join('\n')` */
  function BenefitsList(benefits: Json): Result<string, string> {
    if Nullish(benefits) then Err(ReadError(benefits, "map"))
    else if !benefits.Arr? then Err("eventData.benefits.map is not a function")
    else
      match Lines(benefits.items)
      case Err(e) => Err(e)
      case Ok(lines) => Ok(Join(lines, "\n"))
  }

  /** The serial number of an event pass. */
  function Serial(tokenId: Json, eventId: Json): string {
    "WAVEX-EVENT-" + Show(tokenId) + "-" + Show(eventId)
  }

  // ------------------------------------------------------------- manager

  /** `AppleWalletManager`: it keeps the signing certificate's path and
      password, which nothing reads yet. */
  class AppleWalletManager {
    var certificatePath: Json
    var password: Json

    constructor (certificatePath: Json, password: Json)
      ensures this.certificatePath == certificatePath && this.password == password
    {
      this.certificatePath := certificatePath;
      this.password := password;
    }

    /** `createEventPass(eventData, tokenId)`: a pass exactly when the event
        data is an object whose benefits are a list of objects.  The pass is
        the template with its serial number set and the event's name, date,
        time, location, the token id and the benefit lines written into the
        first five values; every key, label, colour and the terms stay as the
        template has them. */
    method CreateEventPass(appleTeamId: Option<string>, eventData: Json, tokenId: Json) returns (r: Result<Pass, string>)
      ensures r.Ok? <==> !Nullish(eventData) && BenefitsList(Get(eventData, "benefits")).Ok?
      ensures Nullish(eventData) ==> r == Err(ReadError(eventData, "eventId"))
      ensures !Nullish(eventData) && r.Err? ==> r.error == BenefitsList(Get(eventData, "benefits")).error
      ensures r.Ok? ==>
        var t, p := EventTemplate(appleTeamId), r.value;
        p.(serialNumber := None, generic := t.generic) == t &&
        p.serialNumber == Some(Serial(tokenId, Get(eventData, "eventId"))) &&
        Captions(p.generic.primaryFields) == Captions(t.generic.primaryFields) &&
        Captions(p.generic.secondaryFields) == Captions(t.generic.secondaryFields) &&
        Captions(p.generic.auxiliaryFields) == Captions(t.generic.auxiliaryFields) &&
        Captions(p.generic.backFields) == Captions(t.generic.backFields) &&
        Values(p.generic.primaryFields) == [Get(eventData, "name")] &&
        Values(p.generic.secondaryFields) == [Get(eventData, "date"), Get(eventData, "time")] &&
        Values(p.generic.auxiliaryFields) == [Get(eventData, "location"), tokenId] &&
        Values(p.generic.backFields) == [Str(BenefitsList(Get(eventData, "benefits")).value), Str(TERMS)]
    {
      var template := EventTemplate(appleTeamId);
      if Nullish(eventData) {
        return Err(ReadError(eventData, "eventId"));
      }
      template := template.(serialNumber := Some(Serial(tokenId, Get(eventData, "eventId"))));
      var g := template.generic;
      g := g.(primaryFields := SetValue(g.primaryFields, 0, Get(eventData, "name")));
      g := g.(secondaryFields := SetValue(g.secondaryFields, 0, Get(eventData, "date")));
      g := g.(secondaryFields := SetValue(g.secondaryFields, 1, Get(eventData, "time")));
      g := g.(auxiliaryFields := SetValue(g.auxiliaryFields, 0, Get(eventData, "location")));
      g := g.(auxiliaryFields := SetValue(g.auxiliaryFields, 1, tokenId));
      var benefitsList := BenefitsList(Get(eventData, "benefits"));
      if benefitsList.Err? {
        return Err(benefitsList.error);
      }
      g := g.(backFields := SetValue(g.backFields, 0, Str(benefitsList.value)));
      template := template.(generic := g);
      return Ok(template);
    }

    /** `signPass(passData)`: not written yet; it resolves to undefined. */
    method SignPass(passData: Pass) returns (signed: Json)
      ensures signed.Undefined?
    {
      signed := Undefined;
    }

    /** `generatePass(eventData, tokenId)`: it fails where creating the pass
        fails, and otherwise resolves to what signing gives, undefined, so
        the created pass never reaches the caller. */
    method GeneratePass(appleTeamId: Option<string>, eventData: Json, tokenId: Json) returns (r: Result<Json, string>)
      ensures r.Err? <==> Nullish(eventData) || BenefitsList(Get(eventData, "benefits")).Err?
      ensures r.Ok? ==> r.value == Undefined
    {
      var passData := CreateEventPass(appleTeamId, eventData, tokenId);
      if passData.Err? {
        return Err(passData.error);
      }
      var signed := SignPass(passData.value);
      return Ok(signed);
    }
  }

  // ---------------------------------------------------------- properties

  /** With no benefits the back field is empty; a list of benefit objects
      gives one line each, and when no line holds a line break the text
      splits back into exactly those lines. */
  lemma BenefitLinesSplitBack(items: seq<Json>)
    requires forall i :: 0 <= i < |items| ==> !Nullish(items[i]) && '\n' !in Line(items[i])
    ensures |items| == 0 ==> BenefitsList(Arr(items)) == Ok("")
    ensures |items| > 0 ==>
      BenefitsList(Arr(items)).Ok? &&
      Split(BenefitsList(Arr(items)).value, '\n') == seq(|items|, i requires 0 <= i < |items| => Line(items[i]))
  {
    if |items| > 0 {
      var lines := Lines(items).value;
      assert lines == seq(|items|, i requires 0 <= i < |items| => Line(items[i]));
      SplitJoin(lines, '\n');
    }
  }

  /** For whole-number token and event ids, the serial number splits at its
      dashes into "WAVEX", "EVENT" and the two ids, which read back. */
  lemma SerialReadsBack(tokenId: nat, eventId: nat)
    ensures var parts := Split(Serial(Num(tokenId), Num(eventId)), '-');
      parts == ["WAVEX", "EVENT", NatToString(tokenId), NatToString(eventId)] &&
      ParseIntStr(parts[2]) == Num(tokenId) && ParseIntStr(parts[3]) == Num(eventId)
  {
    SerialText(tokenId, eventId);
    NoSignInNumeral(tokenId);
    NoSignInNumeral(eventId);
    ParseIntOfNatToString(tokenId);
    ParseIntOfNatToString(eventId);
    SerialPieces(Serial(Num(tokenId), Num(eventId)), NatToString(tokenId), NatToString(eventId));
  }

  /** The serial number of whole-number ids, written with their numerals. */
  lemma SerialText(tokenId: nat, eventId: nat)
    ensures Serial(Num(tokenId), Num(eventId)) == "WAVEX-EVENT-" + NatToString(tokenId) + "-" + NatToString(eventId)
  {
    ShowNat(tokenId);
    ShowNat(eventId);
  }

  /** The dashes of "WAVEX-EVENT-a-b" are the three it is written with. */
  lemma SerialPieces(serial: string, a: string, b: string)
    requires '-' !in a && '-' !in b
    requires serial == "WAVEX-EVENT-" + a + "-" + b
    ensures Split(serial, '-') == ["WAVEX", "EVENT", a, b]
  {
    var ab := a + ['-'] + b;
    var rest := "EVENT" + ['-'] + ab;
    assert serial == "WAVEX" + ['-'] + rest;
    SplitAround(a, b, '-');
    SplitFirst("EVENT", ab, '-');
    SplitFirst("WAVEX", rest, '-');
  }
}
