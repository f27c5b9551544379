/**
 * `listEvents`: the details of every tracked event, null ones dropped,
 * filtered by the options, ordered by id from the newest, cut into one page;
 * afterwards the tracking record keeps each tracked id once.
 */
module ListEvents {
  import opened Wrappers
  import opened Js
  import opened EventDetails

  /** The listing options.  `page` and `pageSize` are whole numbers, with 0
      standing for an absent option (both are replaced by their default). */
  datatype Options = Options(activeOnly: Json, availableOnly: Json, eventType: Json, page: int, pageSize: int)

  /** The response: the page, its pagination figures and the filters echoed back. */
  datatype Listing = Listing(
    events: seq<Details>, total: nat, page: int, pageSize: int, totalPages: int,
    activeOnly: Json, availableOnly: Json, eventType: Json)

  /** The tracking file: the ids seen so far and the time of the last listing. */
  class Tracking {
    var eventIds: seq<Json>
    var lastUpdate: Json

    /** `{ lastUpdate: null, eventIds: [] }`, or the file's content. */
    constructor (eventIds: seq<Json>, lastUpdate: Json)
      ensures this.eventIds == eventIds && this.lastUpdate == lastUpdate
    {
      this.eventIds := eventIds;
      this.lastUpdate := lastUpdate;
    }
  }

  // ------------------------------------------------------ fetching details

  /** `Promise.all(ids.map(getEventDetails))`, where `fetched[i]` is the
      contract's answer for `ids[i]`; the first failure, in list order,
      rejects the whole. */
  function FetchAll(ids: seq<Json>, fetched: seq<Result<ChainEvent, string>>): (r: Result<seq<Option<Details>>, string>)
    requires |fetched| == |ids|
    ensures r.Ok? ==> |r.value| == |ids|
    ensures r.Ok? ==> forall i | 0 <= i < |ids| :: GetEventDetails(ids[i], fetched[i]) == Ok(r.value[i])
    decreases |ids|
  {
    if |ids| == 0 then Ok([])
    else
      var n := |ids| - 1;
      match FetchAll(ids[..n], fetched[..n])
      case Err(e) => Err(e)
      case Ok(ds) =>
        match GetEventDetails(ids[n], fetched[n])
        case Err(e) => Err(e)
        case Ok(d) => Ok(ds + [d])
  }

  /** A failure among the first `k` answers is the failure of them all. */
  lemma {:induction false} FetchAllPrefixErr(ids: seq<Json>, fetched: seq<Result<ChainEvent, string>>, k: nat)
    requires |fetched| == |ids| && k <= |ids|
    requires FetchAll(ids[..k], fetched[..k]).Err?
    ensures FetchAll(ids, fetched) == FetchAll(ids[..k], fetched[..k])
    decreases |ids| - k
  {
    if k < |ids| {
      var n := |ids| - 1;
      assert ids[..n][..k] == ids[..k] && fetched[..n][..k] == fetched[..k];
      FetchAllPrefixErr(ids[..n], fetched[..n], k);
    } else {
      assert ids[..k] == ids && fetched[..k] == fetched;
    }
  }

  /** The listing fails exactly when the details of some id fail. */
  lemma {:induction false} FetchAllFails(ids: seq<Json>, fetched: seq<Result<ChainEvent, string>>)
    requires |fetched| == |ids|
    ensures FetchAll(ids, fetched).Err? <==> exists i | 0 <= i < |ids| :: GetEventDetails(ids[i], fetched[i]).Err?
  {
    if |ids| > 0 {
      var n := |ids| - 1;
      FetchAllFails(ids[..n], fetched[..n]);
      if FetchAll(ids[..n], fetched[..n]).Err? {
        var i :| 0 <= i < n && GetEventDetails(ids[..n][i], fetched[..n][i]).Err?;
        assert GetEventDetails(ids[i], fetched[i]).Err?;
      }
    }
  }

  // ------------------------------------------------------------- filtering

  /** `details.filter(event => event !== null)` */
  function Present(details: seq<Option<Details>>): (r: seq<Details>)
    ensures |r| <= |details|
  {
    if |details| == 0 then []
    else (if details[0].Some? then [details[0].value] else []) + Present(details[1..])
  }

  lemma {:induction false} PresentExact(details: seq<Option<Details>>, e: Details)
    ensures e in Present(details) <==> Some(e) in details
  {
    if |details| > 0 {
      PresentExact(details[1..], e);
      assert details == [details[0]] + details[1..];
    }
  }

  /** The three optional filters. */
  datatype Filter = Active | Available | OfType(code: Json)

  predicate Passes(e: Details, f: Filter) {
    match f
    case Active => e.active
    case Available => e.active && GreaterThan(ParseIntStr(e.remainingCapacity), 0)
    case OfType(code) => StrictEquals(ParseIntStr(e.eventType), code)
  }

  /** `events.filter(...)` with one of the three filters. */
  function Select(events: seq<Details>, f: Filter): (r: seq<Details>)
    ensures |r| <= |events|
  {
    if |events| == 0 then []
    else (if Passes(events[0], f) then [events[0]] else []) + Select(events[1..], f)
  }

  lemma {:induction false} SelectExact(events: seq<Details>, f: Filter, e: Details)
    ensures e in Select(events, f) <==> e in events && Passes(e, f)
  {
    if |events| > 0 {
      SelectExact(events[1..], f, e);
      assert events == [events[0]] + events[1..];
    }
  }

  /** An event passes the options: active when `activeOnly`, active with
      seats left when `availableOnly`, of the type when a number is given. */
  predicate Wanted(e: Details, o: Options) {
    (Truthy(o.activeOnly) ==> Passes(e, Active)) &&
    (Truthy(o.availableOnly) ==> Passes(e, Available)) &&
    (TypeOf(o.eventType) == NumberType ==> Passes(e, OfType(o.eventType)))
  }

  /** The filters the options switch on, applied in the source's order. */
  function Filtered(present: seq<Details>, o: Options): seq<Details> {
    var a := if Truthy(o.activeOnly) then Select(present, Active) else present;
    var b := if Truthy(o.availableOnly) then Select(a, Available) else a;
    if TypeOf(o.eventType) == NumberType then Select(b, OfType(o.eventType)) else b
  }

  /** The filtered events are exactly the present ones that the options want. */
  lemma FilteredExact(present: seq<Details>, o: Options, e: Details)
    ensures e in Filtered(present, o) <==> e in present && Wanted(e, o)
  {
    var a := if Truthy(o.activeOnly) then Select(present, Active) else present;
    var b := if Truthy(o.availableOnly) then Select(a, Available) else a;
    SelectExact(present, Active, e);
    SelectExact(a, Available, e);
    SelectExact(b, OfType(o.eventType), e);
  }

  // --------------------------------------------------------------- sorting

  /** `parseInt(event.id)` */
  function Key(e: Details): Json {
    ParseInt(e.id)
  }

  /** The comparator `key(b) - key(a)` is negative: `a` goes before `b`.
      With a NaN key it is NaN, which is never negative. */
  predicate Before(a: Details, b: Details, key: Details -> Json) {
    key(a).Num? && key(b).Num? && key(b).n - key(a).n < 0
  }

  /** Inserts `x` after every element it does not go before, so that equal
      keys keep their order. */
  function Insert(x: Details, sorted: seq<Details>, key: Details -> Json): (r: seq<Details>)
    ensures multiset(r) == multiset(sorted) + multiset{x}
    ensures |sorted| > 0 ==> r[0] == x || r[0] == sorted[0]
  {
    if |sorted| == 0 then [x]
    else if Before(x, sorted[0], key) then [x] + sorted
    else
      assert sorted == [sorted[0]] + sorted[1..];
      [sorted[0]] + Insert(x, sorted[1..], key)
  }

  /** A stable sort by descending key, the comparator `key(b) - key(a)`. */
  function SortBy(events: seq<Details>, key: Details -> Json): (r: seq<Details>)
    ensures multiset(r) == multiset(events)
  {
    if |events| == 0 then []
    else
      var n := |events| - 1;
      assert events == events[..n] + [events[n]];
      Insert(events[n], SortBy(events[..n], key), key)
  }

  /** `events.sort((a, b) => parseInt(b.id) - parseInt(a.id))`, as the
      stable sort the language requires. */
  function SortById(events: seq<Details>): (r: seq<Details>)
    ensures multiset(r) == multiset(events)
  {
    SortBy(events, Key)
  }

  predicate NumericKeys(events: seq<Details>, key: Details -> Json) {
    forall e | e in events :: key(e).Num?
  }

  /** Each event's key is at least that of every event after it. */
  predicate Descending(events: seq<Details>, key: Details -> Json)
    requires NumericKeys(events, key)
  {
    forall i, j | 0 <= i < j < |events| :: key(events[i]).n >= key(events[j]).n
  }

  /** Insertion adds `x` and nothing else. */
  lemma InsertMembers(x: Details, sorted: seq<Details>, key: Details -> Json)
    ensures forall e | e in Insert(x, sorted, key) :: e == x || e in sorted
  {
    var r := Insert(x, sorted, key);
    forall e | e in r ensures e == x || e in sorted {
      assert e in multiset(r);
    }
  }

  /** The first event of a descending sequence has the highest key, and the
      rest still descends. */
  lemma DescendingSplit(sorted: seq<Details>, key: Details -> Json)
    requires |sorted| > 0 && NumericKeys(sorted, key) && Descending(sorted, key)
    ensures forall e | e in sorted :: key(sorted[0]).n >= key(e).n
    ensures NumericKeys(sorted[1..], key) && Descending(sorted[1..], key)
  {
    var rest := sorted[1..];
    assert forall i, j | 0 <= i < j < |rest| :: rest[i] == sorted[i + 1] && rest[j] == sorted[j + 1];
  }

  /** An event with a key at least every other key descends before them. */
  lemma DescendingCons(top: Details, tail: seq<Details>, key: Details -> Json)
    requires key(top).Num? && NumericKeys(tail, key) && Descending(tail, key)
    requires forall e | e in tail :: key(top).n >= key(e).n
    ensures NumericKeys([top] + tail, key) && Descending([top] + tail, key)
  {
    var r := [top] + tail;
    assert forall i, j | 0 < i < j < |r| :: r[i] == tail[i - 1] && r[j] == tail[j - 1];
    assert forall j | 0 < j < |r| :: r[j] in tail;
  }

  lemma {:induction false} InsertDescending(x: Details, sorted: seq<Details>, key: Details -> Json)
    requires key(x).Num? && NumericKeys(sorted, key) && Descending(sorted, key)
    ensures NumericKeys(Insert(x, sorted, key), key) && Descending(Insert(x, sorted, key), key)
  {
    if |sorted| > 0 {
      var top := sorted[0];
      DescendingSplit(sorted, key);
      if Before(x, top, key) {
        DescendingCons(x, sorted, key);
      } else {
        var rest := sorted[1..];
        InsertDescending(x, rest, key);
        InsertMembers(x, rest, key);
        assert forall e | e in rest :: e in sorted;
        DescendingCons(top, Insert(x, rest, key), key);
      }
    }
  }

  /** With numeric keys the sorted events run from the highest key down. */
  lemma {:induction false} SortDescending(events: seq<Details>, key: Details -> Json)
    requires NumericKeys(events, key)
    ensures NumericKeys(SortBy(events, key), key) && Descending(SortBy(events, key), key)
  {
    if |events| > 0 {
      var n := |events| - 1;
      assert forall e | e in events[..n] :: e in events;
      SortDescending(events[..n], key);
      InsertDescending(events[n], SortBy(events[..n], key), key);
    }
  }

  // ------------------------------------------------------------ pagination

  /** `options.page || 1` */
  function PageNumber(o: Options): int {
    if o.page != 0 then o.page else 1
  }

  /** `options.pageSize || 10` */
  function PageSize(o: Options): (size: int)
    ensures size != 0
  {
    if o.pageSize != 0 then o.pageSize else 10
  }

  /** Where `slice` reads a bound: a negative one counts from the end. */
  function SliceBound(length: nat, i: int): (b: nat)
    ensures b <= length
  {
    if i < 0 then (if length + i < 0 then 0 else length + i)
    else if i > length then length
    else i
  }

  /** `events.slice(from, to)` */
  function Slice(events: seq<Details>, from: int, to: int): (r: seq<Details>)
    ensures forall e | e in r :: e in events
  {
    var lo := SliceBound(|events|, from);
    var hi := SliceBound(|events|, to);
    if hi <= lo then [] else events[lo..hi]
  }

  /** `Math.ceil(total / size)` for a whole, non-zero size. */
  function CeilDiv(total: nat, size: int): int
    requires size != 0
  {
    if size > 0 then (total + size - 1) / size else -(total / -size)
  }

  /** `(page - 1) * pageSize` */
  function PageStart(o: Options): (start: int)
    ensures PageNumber(o) >= 1 && PageSize(o) >= 1 ==> start >= 0
  {
    (PageNumber(o) - 1) * PageSize(o)
  }

  /** The page that `(page - 1) * pageSize` starts. */
  function Page(filtered: seq<Details>, o: Options): seq<Details> {
    Slice(filtered, PageStart(o), PageStart(o) + PageSize(o))
  }

  // --------------------------------------------------------------- listing

  /** The filtered, ordered events of the details fetched. */
  function Ordered(details: seq<Option<Details>>, o: Options): seq<Details> {
    SortById(Filtered(Present(details), o))
  }

  /** What `listEvents(options)` returns, given the tracked ids and the
      contract's answer for each. */
  function ListingOf(ids: seq<Json>, fetched: seq<Result<ChainEvent, string>>, o: Options): (r: Result<Listing, string>)
    requires |fetched| == |ids|
    ensures r.Ok? ==> FetchAll(ids, fetched).Ok?
  {
    match FetchAll(ids, fetched)
    case Err(e) => Err(e)
    case Ok(details) =>
      var ordered := Ordered(details, o);
      Ok(Listing(Page(ordered, o), |ordered|, PageNumber(o), PageSize(o), CeilDiv(|ordered|, PageSize(o)),
                 Or(o.activeOnly, Bool(false)), Or(o.availableOnly, Bool(false)), o.eventType))
  }

  /** An event is listed in the order only if it came back for a tracked id
      and the options want it; every such event is in the order. */
  lemma OrderedExact(ids: seq<Json>, fetched: seq<Result<ChainEvent, string>>, o: Options, e: Details)
    requires |fetched| == |ids| && FetchAll(ids, fetched).Ok?
    ensures e in Ordered(FetchAll(ids, fetched).value, o) <==>
      (exists i | 0 <= i < |ids| :: GetEventDetails(ids[i], fetched[i]) == Ok(Some(e))) && Wanted(e, o)
  {
    var details := FetchAll(ids, fetched).value;
    var filtered := Filtered(Present(details), o);
    assert e in SortById(filtered) <==> e in multiset(filtered);
    FilteredExact(Present(details), o, e);
    PresentExact(details, e);
    if Some(e) in details {
      var i :| 0 <= i < |details| && details[i] == Some(e);
      assert GetEventDetails(ids[i], fetched[i]) == Ok(Some(e));
    }
    if exists i | 0 <= i < |ids| :: GetEventDetails(ids[i], fetched[i]) == Ok(Some(e)) {
      var i :| 0 <= i < |ids| && GetEventDetails(ids[i], fetched[i]) == Ok(Some(e));
      assert details[i] == Some(e);
    }
  }

  /** Every listed event is wanted by the options and carries a tracked id. */
  lemma ListedTracked(ids: seq<Json>, fetched: seq<Result<ChainEvent, string>>, o: Options)
    requires |fetched| == |ids| && ListingOf(ids, fetched, o).Ok?
    ensures forall e | e in ListingOf(ids, fetched, o).value.events :: Wanted(e, o) && e.id in ids
  {
    var details := FetchAll(ids, fetched).value;
    forall e | e in ListingOf(ids, fetched, o).value.events
      ensures Wanted(e, o) && e.id in ids
    {
      assert e in Ordered(details, o);
      OrderedExact(ids, fetched, o, e);
      var i :| 0 <= i < |ids| && GetEventDetails(ids[i], fetched[i]) == Ok(Some(e));
      assert e.id == ids[i];
    }
  }

  /** With numeric ids the order runs from the highest id down, and the
      total counts every wanted event. */
  lemma ListingOrder(ids: seq<Json>, fetched: seq<Result<ChainEvent, string>>, o: Options)
    requires |fetched| == |ids| && FetchAll(ids, fetched).Ok?
    requires NumericKeys(Filtered(Present(FetchAll(ids, fetched).value), o), Key)
    ensures var ordered := Ordered(FetchAll(ids, fetched).value, o);
      NumericKeys(ordered, Key) && Descending(ordered, Key) &&
      ListingOf(ids, fetched, o).value.total == |Filtered(Present(FetchAll(ids, fetched).value), o)|
  {
    var filtered := Filtered(Present(FetchAll(ids, fetched).value), o);
    SortDescending(filtered, Key);
    assert |multiset(SortById(filtered))| == |multiset(filtered)|;
  }

  /** An absent or zero page is the first, an absent or zero size is ten;
      with a positive page and size the page holds the events from
      `(page - 1) * size`, at most `size` of them. */
  lemma PageWindow(ordered: seq<Details>, o: Options)
    ensures o.page == 0 ==> PageNumber(o) == 1
    ensures o.pageSize == 0 ==> PageSize(o) == 10
    ensures PageNumber(o) >= 1 && PageSize(o) >= 1 ==>
      var start := PageStart(o);
      |Page(ordered, o)| <= PageSize(o) &&
      forall k | 0 <= k < |Page(ordered, o)| :: start + k < |ordered| && Page(ordered, o)[k] == ordered[start + k]
  {
    if PageNumber(o) >= 1 && PageSize(o) >= 1 {
      SliceWindow(ordered, PageStart(o), PageSize(o));
    }
  }

  /** A slice from a non-negative start holds at most `size` events, those
      from `start` on. */
  lemma SliceWindow(events: seq<Details>, start: nat, size: nat)
    ensures var r := Slice(events, start, start + size);
      |r| <= size && forall k | 0 <= k < |r| :: r[k] == events[start + k]
  {
  }

  /** With a positive size, the pages 1 to totalPages each hold an event and
      every later page is empty. */
  lemma PagesCover(ordered: seq<Details>, o: Options)
    requires PageNumber(o) >= 1 && PageSize(o) >= 1
    ensures var totalPages := CeilDiv(|ordered|, PageSize(o));
      (PageNumber(o) <= totalPages <==> |Page(ordered, o)| > 0)
  {
    SliceWindow(ordered, PageStart(o), PageSize(o));
    PageWithinCeil(|ordered|, PageSize(o), PageNumber(o));
  }

  /** Page `p` of `size` starts before the end of `n` items exactly when `p`
      is at most the number of pages. */
  lemma PageWithinCeil(n: nat, size: int, p: int)
    requires size >= 1 && p >= 1
    ensures p <= CeilDiv(n, size) <==> (p - 1) * size < n
  {
    var m := n + size - 1;
    assert (p - 1) * size < n <==> p * size <= m by {
      assert p * size == (p - 1) * size + size;
    }
    MulLeIffLeDiv(p, size, m);
  }

  /** `p * size <= m` exactly when `p <= m / size`. */
  lemma MulLeIffLeDiv(p: int, size: int, m: nat)
    requires size >= 1
    ensures p * size <= m <==> p <= m / size
  {
    var q := m / size;
    assert q * size <= m < q * size + size;
    if p <= q {
      MulMonotone(p, q, size);
    } else {
      MulMonotone(q + 1, p, size);
      assert (q + 1) * size == q * size + size;
    }
  }

  /** Multiplying by a non-negative number keeps the order. */
  lemma MulMonotone(a: int, b: int, c: int)
    requires a <= b && c >= 0
    ensures a * c <= b * c
  {
    assert b * c == a * c + (b - a) * c;
  }

  // -------------------------------------------------------- tracked ids

  /** `set.add(x)` on an insertion-ordered set. */
  function Add(members: seq<Json>, x: Json): (r: seq<Json>)
    ensures x in r && forall y | y in members :: y in r
  {
    if x in members then members else members + [x]
  }

  /** `new Set(ids)`: each id once, in the order of its first appearance. */
  function Unique(ids: seq<Json>): (r: seq<Json>)
  {
    if |ids| == 0 then [] else Add(Unique(ids[..|ids| - 1]), ids[|ids| - 1])
  }

  /** The set holds the ids and nothing else, each once. */
  lemma {:induction false} UniqueExact(ids: seq<Json>)
    ensures forall x :: x in Unique(ids) <==> x in ids
    ensures forall i, j | 0 <= i < j < |Unique(ids)| :: Unique(ids)[i] != Unique(ids)[j]
  {
    if |ids| > 0 {
      var n := |ids| - 1;
      UniqueExact(ids[..n]);
      assert ids == ids[..n] + [ids[n]];
    }
  }

  /** The `Promise.all` of the details, one tracked id after another. */
  method FetchDetails(ids: seq<Json>, fetched: seq<Result<ChainEvent, string>>)
    returns (r: Result<seq<Option<Details>>, string>)
    requires |fetched| == |ids|
    ensures r == FetchAll(ids, fetched)
  {
    var details: seq<Option<Details>> := [];
    var i := 0;
    while i < |ids|
      invariant 0 <= i <= |ids|
      invariant FetchAll(ids[..i], fetched[..i]) == Ok(details)
    {
      var d := GetEventDetails(ids[i], fetched[i]);
      assert ids[..i + 1][..i] == ids[..i] && fetched[..i + 1][..i] == fetched[..i];
      if d.Err? {
        FetchAllPrefixErr(ids, fetched, i + 1);
        return Err(d.error);
      }
      details := details + [d.value];
      i := i + 1;
    }
    assert ids[..i] == ids && fetched[..i] == fetched;
    return Ok(details);
  }

  /** Adds the ids of the listed events to the tracked ones, then stamps the
      record: the listed ids were all tracked already, so the record ends up
      holding each tracked id once. */
  method Track(tracking: Tracking, listed: seq<Details>, now: string)
    requires forall e | e in listed :: e.id in tracking.eventIds
    modifies tracking
    ensures tracking.eventIds == Unique(old(tracking.eventIds)) && tracking.lastUpdate == Str(now)
  {
    var ids := tracking.eventIds;
    UniqueExact(ids);
    var current := Unique(ids);
    var j := 0;
    while j < |listed|
      invariant 0 <= j <= |listed|
      invariant current == Unique(ids)
    {
      assert listed[j] in listed;
      current := Add(current, listed[j].id);
      j := j + 1;
    }
    tracking.eventIds := current;
    tracking.lastUpdate := Str(now);
  }

  /** `listEvents(options)` against the tracking record read from its file;
      `fetched[i]` is the contract's answer for the `i`-th tracked id, and
      `now` the time of the listing. */
  method ListEvents(tracking: Tracking, fetched: seq<Result<ChainEvent, string>>, options: Options, now: string)
    returns (r: Result<Listing, string>)
    requires |fetched| == |tracking.eventIds|
    modifies tracking
    ensures r == ListingOf(old(tracking.eventIds), fetched, options)
    ensures r.Ok? ==> tracking.eventIds == Unique(old(tracking.eventIds)) && tracking.lastUpdate == Str(now)
    ensures r.Err? ==> tracking.eventIds == old(tracking.eventIds) && tracking.lastUpdate == old(tracking.lastUpdate)
  {
    var ids := tracking.eventIds;
    var fetchedAll := FetchDetails(ids, fetched);
    if fetchedAll.Err? {
      return Err(fetchedAll.error);
    }
    var details := fetchedAll.value;

    var filtered := Present(details);
    if Truthy(options.activeOnly) {
      filtered := Select(filtered, Active);
    }
    if Truthy(options.availableOnly) {
      filtered := Select(filtered, Available);
    }
    if TypeOf(options.eventType) == NumberType {
      filtered := Select(filtered, OfType(options.eventType));
    }
    filtered := SortById(filtered);
    assert filtered == Ordered(details, options);

    var page := PageNumber(options);
    var pageSize := PageSize(options);
    var start := (page - 1) * pageSize;
    var paginated := Slice(filtered, start, start + pageSize);
    r := Ok(Listing(paginated, |filtered|, page, pageSize, CeilDiv(|filtered|, pageSize),
                    Or(options.activeOnly, Bool(false)), Or(options.availableOnly, Bool(false)), options.eventType));
    assert r == ListingOf(ids, fetched, options);

    ListedTracked(ids, fetched, options);
    Track(tracking, paginated, now);
  }
}
