/**
 * The command-line side of the benefit administration scripts: the five
 * environment variables `addBatchBenefits` needs, the TOKEN_RANGE parser it
 * shares with `verifyBenefits`, and the table that names benefit types.  The
 * environment is a map from variable name to value; the operator's answer
 * to the confirmation prompt and the contract call are parameters.
 */
module BenefitRange {
  import opened Wrappers
  import opened Js

  // ------------------------------------------------------------ type names

  const BENEFIT_TYPE_NAMES := [Str("MERCHANT_ALLOWANCE"), Str("YACHT_EVENT"), Str("DISCOUNT")]

  /** `benefitTypeNames[benefitType] || 'UNKNOWN'` */
  function TypeName(benefitType: Json): Json {
    Or(ElementAt(BENEFIT_TYPE_NAMES, benefitType), Str("UNKNOWN"))
  }

  /** The three codes of the table are named; every other number and NaN is
      UNKNOWN. */
  lemma TypeNames(benefitType: Json)
    requires benefitType.Num? || benefitType.NaN?
    ensures benefitType == Num(0) ==> TypeName(benefitType) == Str("MERCHANT_ALLOWANCE")
    ensures benefitType == Num(1) ==> TypeName(benefitType) == Str("YACHT_EVENT")
    ensures benefitType == Num(2) ==> TypeName(benefitType) == Str("DISCOUNT")
    ensures benefitType.NaN? || benefitType.n < 0 || benefitType.n > 2 <==>
      TypeName(benefitType) == Str("UNKNOWN")
  {
  }

  // ---------------------------------------------------------- token ranges

  /** `Array.from({length: end - start + 1}, (_, i) => start + i)`, where the
      length of a NaN or negative count is 0. */
  function Range(start: Json, end: Json): (ids: seq<Json>)
    requires (start.Num? || start.NaN?) && (end.Num? || end.NaN?)
    ensures |ids| == if start.Num? && end.Num? && start.n <= end.n then end.n - start.n + 1 else 0
    ensures forall i :: 0 <= i < |ids| ==> ids[i] == Num(start.n + i)
  {
    var diff := Minus(end, start);
    var length: nat := if diff.Num? && diff.n + 1 > 0 then diff.n + 1 else 0;
    if length == 0 then [] else seq(length, i requires 0 <= i < length => Num(start.n + i))
  }

  /** The token ids of a TOKEN_RANGE: `start-end` when it holds a dash,
      otherwise a comma-separated list, each piece trimmed and read with
      parseInt. */
  function TokenIds(range: string): (ids: seq<Json>)
    ensures forall i :: 0 <= i < |ids| ==> ids[i].Num? || ids[i].NaN?
  {
    if Contains(range, "-") then
      var ends := Split(range, '-');
      Range(StringToNumber(ends[0]), if |ends| > 1 then StringToNumber(ends[1]) else NaN)
    else
      var pieces := Split(range, ',');
      seq(|pieces|, i requires 0 <= i < |pieces| => ParseIntStr(Trim(pieces[i])))
  }

  // ----------------------------------------------------- addBatchBenefits

  /** The process environment: a variable that is not set has no entry. */
  type Env = map<string, string>

  const REQUIRED_VARS := ["CONTRACT_ADDRESS", "BATCH_BENEFIT_TYPE", "BATCH_BENEFIT_VALUE",
                          "BATCH_BENEFIT_DURATION", "TOKEN_RANGE"]
  const MISSING_VARS := "Missing required environment variables: "
  const INVALID_IDS := "Invalid token IDs in TOKEN_RANGE. Format should be '1-5' or '1,2,3,4,5'"

  /** A variable counts as set when its value is truthy: present and not empty. */
  predicate IsSet(env: Env, name: string) {
    Value(env, name) != ""
  }

  /** The value of a variable, the empty string when it is not set. */
  function Value(env: Env, name: string): string {
    if name in env then env[name] else ""
  }

  /** The names among `names` that are not set, in order. */
  function MissingOf(names: seq<string>, env: Env): (r: seq<string>)
    ensures forall k :: k in r <==> k in names && !IsSet(env, k)
    ensures |r| <= |names|
  {
    if |names| == 0 then []
    else (if IsSet(env, names[0]) then [] else [names[0]]) + MissingOf(names[1..], env)
  }

  /** The arguments of the `addBatchBenefits` contract call. */
  datatype Call = Call(contract: string, tokenIds: seq<Json>, benefitType: Json, value: Json, duration: Json)

  /** `main` of addBatchBenefits up to the contract call: the variables are
      checked, the range is parsed, and a NaN id is refused. */
  function Prepare(env: Env): Result<Call, string> {
    var missing := MissingOf(REQUIRED_VARS, env);
    if |missing| > 0 then Err(MISSING_VARS + Join(missing, ", "))
    else
      var ids := TokenIds(Value(env, "TOKEN_RANGE"));
      if exists id | id in ids :: id.NaN? then Err(INVALID_IDS)
      else Ok(Call(Value(env, "CONTRACT_ADDRESS"), ids, ParseIntStr(Value(env, "BATCH_BENEFIT_TYPE")),
                   ParseIntStr(Value(env, "BATCH_BENEFIT_VALUE")), ParseIntStr(Value(env, "BATCH_BENEFIT_DURATION"))))
  }

  /** The whole run: after the checks, the operator must answer "yes" (in any
      case) before `send` submits the call.  `Ok(false)` is a cancelled run. */
  function Run(env: Env, answer: string, send: Call -> Result<string, string>): Result<bool, string> {
    match Prepare(env)
    case Err(e) => Err(e)
    case Ok(call) =>
      if ToLower(answer) != "yes" then Ok(false)
      else
        match send(call)
        case Ok(_) => Ok(true)
        case Err(e) => Err(e)
  }

  /** The error names every unset variable and only those, in the order of
      the table; when none is unset, all five are set. */
  lemma MissingNamedEvery(env: Env)
    ensures var missing := MissingOf(REQUIRED_VARS, env);
      (forall k :: k in missing <==> k in REQUIRED_VARS && !IsSet(env, k)) &&
      (|missing| > 0 ==> Prepare(env) == Err(MISSING_VARS + Join(missing, ", "))) &&
      (|missing| == 0 ==> forall k | k in REQUIRED_VARS :: IsSet(env, k))
  {
  }

  /** A call is prepared only with ids that are all numbers; once the
      variables are set, any NaN id refuses the run, and a refused run never
      reaches the contract, whatever it would have answered. */
  lemma NaNRefusedBeforeCall(env: Env, answer: string, send1: Call -> Result<string, string>,
                             send2: Call -> Result<string, string>)
    ensures Prepare(env).Ok? ==> forall id | id in Prepare(env).value.tokenIds :: id.Num?
    ensures |MissingOf(REQUIRED_VARS, env)| == 0 && (exists id | id in TokenIds(Value(env, "TOKEN_RANGE")) :: id.NaN?) ==>
      Prepare(env) == Err(INVALID_IDS)
    ensures Prepare(env).Err? ==>
      Run(env, answer, send1) == Run(env, answer, send2) == Err(Prepare(env).error)
  {
  }

  /** A range whose ends are written as whole numbers gives the ids from the
      first to the last, none when the last is below the first. */
  lemma {:induction false} RangeOfNumerals(first: nat, last: nat)
    ensures var ids := TokenIds(NatToString(first) + "-" + NatToString(last));
      |ids| == (if last < first then 0 else last - first + 1) &&
      (forall i :: 0 <= i < |ids| ==> ids[i] == Num(first + i)) &&
      (first <= last ==> ids[0] == Num(first) && ids[|ids| - 1] == Num(last))
  {
    var a, b := NatToString(first), NatToString(last);
    NoSignInNumeral(last);
    DashedEnds(first, b);
    DashedRange(a + "-" + b, a, b);
    NatToStringIsNumber(first);
    NatToStringIsNumber(last);
  }

  /** A range of two ends runs from the first to the second. */
  lemma DashedRange(range: string, first: string, last: string)
    requires Contains(range, "-") && Split(range, '-') == [first, last]
    ensures TokenIds(range) == Range(StringToNumber(first), StringToNumber(last))
  {
  }

  /** A comma-separated list of whole numbers reads back as those numbers, in
      order. */
  lemma {:induction false} ListOfNumerals(ids: seq<nat>)
    requires |ids| > 0
    ensures var numerals := seq(|ids|, i requires 0 <= i < |ids| => NatToString(ids[i]));
      TokenIds(Join(numerals, ",")) == seq(|ids|, i requires 0 <= i < |ids| => Num(ids[i]))
  {
    var numerals := seq(|ids|, i requires 0 <= i < |ids| => NatToString(ids[i]));
    forall i | 0 <= i < |numerals|
      ensures '-' !in numerals[i] && ',' !in numerals[i]
    {
      NoSignInNumeral(ids[i]);
    }
    var s := Join(numerals, ",");
    CommaList(numerals);
    ListPieces(s);
    forall i | 0 <= i < |ids|
      ensures TokenIds(s)[i] == Num(ids[i])
    {
      NumeralReadBack(ids[i]);
    }
  }

  /** A list joined with commas, of pieces without a comma or a dash, has no
      dash and splits back into its pieces. */
  lemma CommaList(pieces: seq<string>)
    requires |pieces| > 0
    requires forall i :: 0 <= i < |pieces| ==> '-' !in pieces[i] && ',' !in pieces[i]
    ensures !Contains(Join(pieces, ","), "-") && Split(Join(pieces, ","), ',') == pieces
  {
    JoinAvoids(pieces, ",", '-');
    NotContained(Join(pieces, ","), '-');
    SplitJoin(pieces, ',');
  }

  // -------------------------------------------------------- verifyBenefits

  /** `main` of verifyBenefits: the ids it reads benefits for.  An unset
      TOKEN_RANGE fails on `includes`; there is no NaN check. */
  function VerifyTargets(range: Option<string>): Result<seq<Json>, string> {
    match range
    case None => Err("Cannot read properties of undefined (reading 'includes')")
    case Some(r) => Ok(TokenIds(r))
  }

  /** A piece that parseInt cannot read, after a number, reaches the
      benefit queries as a NaN id ("1,x" gives 1 and NaN). */
  lemma VerifyPassesNaN(n: nat, piece: string)
    requires '-' !in piece && ',' !in piece && ParseIntStr(Trim(piece)).NaN?
    ensures VerifyTargets(Some(NatToString(n) + "," + piece)) == Ok([Num(n), NaN])
  {
    var range := NatToString(n) + "," + piece;
    CommaPair(n, piece);
    ListOfPair(range, NatToString(n), piece);
    NumeralReadBack(n);
  }

  /** A list of two pieces gives their two ids. */
  lemma ListOfPair(range: string, first: string, second: string)
    requires !Contains(range, "-") && Split(range, ',') == [first, second]
    ensures TokenIds(range) == [ParseIntStr(Trim(first)), ParseIntStr(Trim(second))]
  {
    ListPieces(range);
    PairOf(TokenIds(range), ParseIntStr(Trim(first)), ParseIntStr(Trim(second)));
  }

  /** A sequence of two known elements. */
  lemma PairOf(ids: seq<Json>, first: Json, second: Json)
    requires |ids| == 2 && ids[0] == first && ids[1] == second
    ensures ids == [first, second]
  {
  }

  /** The pieces of `n,piece`. */
  lemma CommaPair(n: nat, piece: string)
    requires '-' !in piece && ',' !in piece
    ensures var range := NatToString(n) + "," + piece;
      !Contains(range, "-") && Split(range, ',') == [NatToString(n), piece]
  {
    var a := NatToString(n);
    NoSignInNumeral(n);
    assert '-' !in a + "," + piece;
    NotContained(a + "," + piece, '-');
    SplitAround(a, piece, ',');
    assert a + [','] + piece == a + "," + piece;
  }

  /** Without a dash, id `i` is piece `i` of the list, trimmed and parsed. */
  lemma ListPieces(range: string)
    requires !Contains(range, "-")
    ensures var pieces := Split(range, ',');
      |TokenIds(range)| == |pieces| &&
      forall i :: 0 <= i < |pieces| ==> TokenIds(range)[i] == ParseIntStr(Trim(pieces[i]))
  {
  }

  /** The numeral of a whole number, trimmed and parsed, is that number. */
  lemma NumeralReadBack(n: nat)
    ensures ParseIntStr(Trim(NatToString(n))) == Num(n)
  {
    var d := NatToString(n);
    assert IntToString(n) == d;
    ParseIntOfIntToString(n);
    assert ParseIntStr(d) == Num(n);
    TrimDigits(d);
  }

  // ------------------------------------------------- the dashed range gap

  /** A dashed TOKEN_RANGE whose end is not a number ("1-x") gives no ids at
      all, so the NaN check has nothing to refuse and the run goes on with an
      empty batch. */
  lemma DashedNonNumberPasses(env: Env, first: nat, end: string)
    requires |MissingOf(REQUIRED_VARS, env)| == 0
    requires '-' !in end && StringToNumber(end).NaN?
    requires Value(env, "TOKEN_RANGE") == NatToString(first) + "-" + end
    ensures Prepare(env).Ok? && Prepare(env).value.tokenIds == []
  {
    DashedEnds(first, end);
  }

  /** The ends of `first-end`. */
  lemma DashedEnds(first: nat, end: string)
    requires '-' !in end
    ensures var range := NatToString(first) + "-" + end;
      Contains(range, "-") && Split(range, '-') == [NatToString(first), end]
  {
    var a := NatToString(first);
    NoSignInNumeral(first);
    assert OccursAt(a + "-" + end, "-", |a|);
    SplitAround(a, end, '-');
  }

  /** The parser with the check the error message promises: a dashed range
      whose ends are not both numbers is refused like a NaN id. */
  function StrictTokenIds(range: string): Result<seq<Json>, string> {
    if Contains(range, "-") then
      var ends := Split(range, '-');
      var start := StringToNumber(ends[0]);
      var end := if |ends| > 1 then StringToNumber(ends[1]) else NaN;
      if start.NaN? || end.NaN? then Err(INVALID_IDS) else Ok(Range(start, end))
    else
      var ids := TokenIds(range);
      if exists id | id in ids :: id.NaN? then Err(INVALID_IDS) else Ok(ids)
  }

  /** The strict parser accepts a range only when its ends are numbers and
      every id is a number, gives the same ids as the original whenever it
      accepts, and refuses the ranges the original lets through empty. */
  lemma StrictRefusesNonNumericEnds(range: string, first: nat, end: string)
    ensures StrictTokenIds(range).Ok? ==>
      StrictTokenIds(range).value == TokenIds(range) &&
      forall id | id in TokenIds(range) :: id.Num?
    ensures StrictTokenIds(range).Ok? && Contains(range, "-") ==>
      var ends := Split(range, '-');
      |ends| > 1 && StringToNumber(ends[0]).Num? && StringToNumber(ends[1]).Num?
    ensures (exists id | id in TokenIds(range) :: id.NaN?) ==> StrictTokenIds(range).Err?
    ensures '-' !in end && StringToNumber(end).NaN? ==>
      StrictTokenIds(NatToString(first) + "-" + end) == Err(INVALID_IDS)
  {
    if '-' !in end {
      DashedEnds(first, end);
    }
  }
}
