/**
 * `getEventDetails`: an event read from the contract, formatted for display,
 * with its remaining capacity, its availability status and the name of its
 * type.  The contract read itself is a parameter: the event it returned, or
 * the message of the error it raised.
 */
module EventDetails {
  import opened Wrappers
  import opened Js
  import EventConfig
  import opened Ether

  /** The `events(id)` record of the contract: `uint256` and `uint8` values
      are whole numbers, the price in wei. */
  datatype ChainEvent = ChainEvent(
    name: string, price: nat, capacity: nat, soldCount: nat, active: bool, eventType: nat)

  /** The formatted event: every number is written as a string. */
  datatype Details = Details(
    id: Json, name: string, price: string, capacity: string, soldCount: string,
    active: bool, eventType: string, typeLabel: string,
    remainingCapacity: string, status: string)

  const INACTIVE := "INACTIVE"
  const AVAILABLE := "AVAILABLE"
  const SOLD_OUT := "SOLD_OUT"

  // ------------------------------------------------------ the derived fields

  /** `Object.keys(EVENT_TYPES)[eventType] || 'UNKNOWN'` */
  function TypeLabel(eventType: nat): Json {
    Or(ElementAt(EventConfig.TypeKeys(), Num(eventType)), Str("UNKNOWN"))
  }

  /** A type code of the table is named by its key, which maps back to the
      code; every other code is UNKNOWN. */
  lemma TypeLabelNamesCode(eventType: nat)
    ensures TypeLabel(eventType).Str?
    ensures eventType < 3 ==> Get(EventConfig.EVENT_TYPES, TypeLabel(eventType).s) == Num(eventType)
    ensures eventType >= 3 <==> TypeLabel(eventType) == Str("UNKNOWN")
  {
    if eventType < 3 {
      EventConfig.TypeKeysNameCodes(eventType);
      var key := EventConfig.TypeKeys()[eventType];
      assert key.s == EventConfig.EVENT_TYPES.fields[eventType].0;
      assert key.s != "UNKNOWN" by {
        assert key.s[0] != 'U';
      }
    }
  }

  /** `active ? (parseInt(remaining) > 0 ? 'AVAILABLE' : 'SOLD_OUT') : 'INACTIVE'` */
  function Status(active: bool, remainingCapacity: string): string {
    if active then (if GreaterThan(ParseIntStr(remainingCapacity), 0) then AVAILABLE else SOLD_OUT)
    else INACTIVE
  }

  /** The formatted event, before and after the two derived fields. */
  function Format(eventId: Json, e: ChainEvent): (d: Details) {
    var capacity := NatToString(e.capacity);
    var soldCount := NatToString(e.soldCount);
    var remainingCapacity := Show(Minus(ParseIntStr(capacity), ParseIntStr(soldCount)));
    Details(eventId, e.name, FormatEther(e.price), capacity, soldCount, e.active,
            NatToString(e.eventType), Show(TypeLabel(e.eventType)),
            remainingCapacity, Status(e.active, remainingCapacity))
  }

  /** `getEventDetails(eventId)`, where `fetched` is what `events(eventId)`
      returned or the message of the error it threw.  `Ok(None)` is the
      `null` of an event that does not exist. */
  function GetEventDetails(eventId: Json, fetched: Result<ChainEvent, string>): (r: Result<Option<Details>, string>)
    ensures r.Ok? && r.value.Some? ==> fetched.Ok? && r.value.value.id == eventId
    ensures r.Ok? && r.value.Some? ==>
      r.value.value.name == fetched.value.name && r.value.value.price == FormatEther(fetched.value.price) &&
      r.value.value.active == fetched.value.active
  {
    if !Truthy(eventId) then Err("Event ID is required")
    else if fetched.Err? then
      if Contains(fetched.error, "Event not found") then Ok(None) else Err(fetched.error)
    else
      Ok(Some(Format(eventId, fetched.value)))
  }

  // ------------------------------------------------------------- properties

  /** A falsy id, the number 0 included, is refused before the contract is
      read; a truthy id of an event that exists is formatted. */
  lemma MissingIdRejected(eventId: Json, fetched: Result<ChainEvent, string>)
    ensures !Truthy(eventId) ==> GetEventDetails(eventId, fetched) == Err("Event ID is required")
    ensures Truthy(eventId) && fetched.Ok? ==>
      GetEventDetails(eventId, fetched).Ok? && GetEventDetails(eventId, fetched).value.Some?
  {
  }

  /** A read that failed with "Event not found" gives null; any other
      failure propagates unchanged. */
  lemma NotFoundIsNull(eventId: Json, message: string)
    requires Truthy(eventId)
    ensures Contains(message, "Event not found") ==> GetEventDetails(eventId, Err(message)) == Ok(None)
    ensures !Contains(message, "Event not found") ==> GetEventDetails(eventId, Err(message)) == Err(message)
  {
  }

  /** The counts are the decimal numerals of the contract's numbers, and the
      remaining capacity is the numeral of capacity minus sold count, which
      can be negative. */
  lemma DetailsNumbers(eventId: Json, e: ChainEvent)
    requires Truthy(eventId)
    ensures var d := GetEventDetails(eventId, Ok(e)).value.value;
      d.capacity == NatToString(e.capacity) && d.soldCount == NatToString(e.soldCount) &&
      d.eventType == NatToString(e.eventType) &&
      d.remainingCapacity == IntToString(e.capacity - e.soldCount)
  {
    DetailsAreFormat(eventId, e);
    FormatCounts(eventId, e);
    NumbersOfDetails(Format(eventId, e), e);
  }

  /** An event that exists is formatted. */
  lemma DetailsAreFormat(eventId: Json, e: ChainEvent)
    requires Truthy(eventId)
    ensures GetEventDetails(eventId, Ok(e)) == Ok(Some(Format(eventId, e)))
  {
  }

  /** The counts of formatted details, from the counts they were written from. */
  lemma NumbersOfDetails(d: Details, e: ChainEvent)
    requires d.capacity == NatToString(e.capacity) && d.soldCount == NatToString(e.soldCount)
    requires d.remainingCapacity == Show(Minus(ParseIntStr(d.capacity), ParseIntStr(d.soldCount)))
    ensures d.remainingCapacity == IntToString(e.capacity - e.soldCount)
  {
    RemainingNumeral(e.capacity, e.soldCount);
  }

  /** Where the formatted counts come from. */
  lemma FormatCounts(eventId: Json, e: ChainEvent)
    ensures var d := Format(eventId, e);
      d.capacity == NatToString(e.capacity) && d.soldCount == NatToString(e.soldCount) &&
      d.eventType == NatToString(e.eventType) &&
      d.remainingCapacity == Show(Minus(ParseIntStr(d.capacity), ParseIntStr(d.soldCount))) &&
      d.status == Status(e.active, d.remainingCapacity) && d.typeLabel == Show(TypeLabel(e.eventType))
  {
  }

  /** The remaining capacity is written as the difference of the counts. */
  lemma RemainingNumeral(capacity: nat, soldCount: nat)
    ensures Show(Minus(ParseIntStr(NatToString(capacity)), ParseIntStr(NatToString(soldCount)))) ==
            IntToString(capacity - soldCount)
  {
    ParseIntOfNatToString(capacity);
    ParseIntOfNatToString(soldCount);
  }

  /** An inactive event is INACTIVE whatever its capacity; an active one is
      AVAILABLE while seats remain and SOLD_OUT otherwise. */
  lemma DetailsStatus(eventId: Json, e: ChainEvent)
    requires Truthy(eventId)
    ensures var d := GetEventDetails(eventId, Ok(e)).value.value;
      (d.status == INACTIVE <==> !e.active) &&
      (d.status == AVAILABLE <==> e.active && e.soldCount < e.capacity) &&
      (d.status == SOLD_OUT <==> e.active && e.capacity <= e.soldCount)
  {
    DetailsAreFormat(eventId, e);
    DetailsNumbers(eventId, e);
    FormatCounts(eventId, e);
    StatusOfDetails(Format(eventId, e), e);
  }

  /** The status of formatted details, from the counts. */
  lemma StatusOfDetails(d: Details, e: ChainEvent)
    requires d.status == Status(e.active, d.remainingCapacity)
    requires d.remainingCapacity == IntToString(e.capacity - e.soldCount)
    ensures (d.status == INACTIVE <==> !e.active) &&
      (d.status == AVAILABLE <==> e.active && e.soldCount < e.capacity) &&
      (d.status == SOLD_OUT <==> e.active && e.capacity <= e.soldCount)
  {
    ParseIntOfIntToString(e.capacity - e.soldCount);
    StatusOf(e.active, d.remainingCapacity, e.capacity - e.soldCount);
  }

  /** The three statuses, for a remaining capacity that reads as `left`. */
  lemma StatusOf(active: bool, remainingCapacity: string, left: int)
    requires ParseIntStr(remainingCapacity) == Num(left)
    ensures var status := Status(active, remainingCapacity);
      (status == INACTIVE <==> !active) &&
      (status == AVAILABLE <==> active && left > 0) &&
      (status == SOLD_OUT <==> active && left <= 0)
  {
    assert INACTIVE[0] != AVAILABLE[0] && INACTIVE[0] != SOLD_OUT[0] && AVAILABLE[0] != SOLD_OUT[0];
  }

  /** The type label names the event's type code, or is UNKNOWN for a code
      outside the table. */
  lemma DetailsTypeLabel(eventId: Json, e: ChainEvent)
    requires Truthy(eventId)
    ensures var d := GetEventDetails(eventId, Ok(e)).value.value;
      (e.eventType < 3 ==> Get(EventConfig.EVENT_TYPES, d.typeLabel) == Num(e.eventType)) &&
      (e.eventType >= 3 <==> d.typeLabel == "UNKNOWN")
  {
    DetailsAreFormat(eventId, e);
    FormatCounts(eventId, e);
    TypeLabelNamesCode(e.eventType);
    LabelText(TypeLabel(e.eventType), Format(eventId, e).typeLabel);
  }

  /** A label that is a string is shown as its text. */
  lemma LabelText(typeLabel: Json, text: string)
    requires typeLabel.Str? && text == Show(typeLabel)
    ensures text == typeLabel.s && (text == "UNKNOWN" <==> typeLabel == Str("UNKNOWN"))
  {
  }
}
