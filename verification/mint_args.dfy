/**
 * The command-line minting script: `parseArgs` reads the mint type and
 * quantity from the process arguments, and `main` refuses a batch above the
 * contract's limit before sending the mint, then reports the minted ids.
 * The contract's figures and the transaction are parameters.
 */
module MintArgs {
  import opened Wrappers
  import opened Js

  const SINGLE := "single"
  const BATCH := "batch"
  const BATCH_FLAG := "--batch"
  const SCRIPT := "mint.js"

  /** `xs.indexOf(x)`: the first position of `x`, or -1. */
  function IndexOf(xs: seq<string>, x: string): (i: int)
    ensures -1 <= i < |xs|
    ensures i == -1 <==> x !in xs
    ensures i >= 0 ==> xs[i] == x && x !in xs[..i]
  {
    if |xs| == 0 then -1
    else if xs[0] == x then 0
    else
      var j := IndexOf(xs[1..], x);
      assert xs[1..][..if j >= 0 then j else 0] == xs[1..if j >= 0 then j + 1 else 1];
      if j == -1 then -1 else j + 1
  }

  /** The options object of `parseArgs`. */
  datatype Options = Options(mintType: string, quantity: int)

  /** The arguments after the first "mint.js"; all of them when it is absent. */
  function Relevant(argv: seq<string>): (args: seq<string>)
    ensures |args| <= |argv|
  {
    argv[IndexOf(argv, SCRIPT) + 1..]
  }

  /** `parseInt(arg) || 1` */
  function QuantityOf(arg: string): (q: int)
    ensures q != 0
  {
    var parsed := Or(ParseIntStr(arg), Num(1));
    assert parsed.Num? && parsed.n != 0;
    parsed.n
  }

  /** What `parseArgs` returns for the process arguments `argv`. */
  function Parse(argv: seq<string>): (o: Options)
    ensures o.quantity != 0
  {
    var args := Relevant(argv);
    if BATCH_FLAG !in args then Options(SINGLE, 1)
    else
      var quantityIndex := IndexOf(args, BATCH_FLAG) + 1;
      Options(BATCH, if quantityIndex < |args| then QuantityOf(args[quantityIndex]) else 1)
  }

  /** The options object, updated field by field. */
  class MintOptions {
    var mintType: string
    var quantity: int

    /** `{ type: 'single', quantity: 1 }` */
    constructor ()
      ensures mintType == SINGLE && quantity == 1
    {
      mintType := SINGLE;
      quantity := 1;
    }
  }

  /** `parseArgs()` */
  method ParseArgs(argv: seq<string>) returns (options: MintOptions)
    ensures fresh(options)
    ensures options.mintType == Parse(argv).mintType && options.quantity == Parse(argv).quantity
  {
    var relevantArgs := argv[IndexOf(argv, SCRIPT) + 1..];
    options := new MintOptions();
    if BATCH_FLAG in relevantArgs {
      options.mintType := BATCH;
      var quantityIndex := IndexOf(relevantArgs, BATCH_FLAG) + 1;
      if quantityIndex < |relevantArgs| {
        options.quantity := QuantityOf(relevantArgs[quantityIndex]);
      }
    }
  }

  // ---------------------------------------------------------------- main

  /** The transaction `main` sends. */
  datatype MintCall = MintOne | MintMany(quantity: int)

  /** A mined transaction: its hash, and the ids of its BatchMinted event
      when its logs hold one. */
  datatype Receipt = Receipt(hash: string, batchIds: Option<seq<nat>>)

  /** What `main` resolves to. */
  datatype Outcome =
    | Success(transactionHash: string, tokenIds: seq<string>)
    | Failure(error: string)

  const NO_IDS := "Cannot read properties of undefined (reading 'map')"

  /** The limit check of `main`: a batch above MAX_BATCH_MINT is refused. */
  function Check(options: Options, maxBatchMint: nat): Result<MintCall, string> {
    if options.mintType == BATCH && options.quantity > maxBatchMint then
      Err("Batch size " + IntToString(options.quantity) + " exceeds maximum of " + NatToString(maxBatchMint))
    else if options.mintType == BATCH then Ok(MintMany(options.quantity))
    else Ok(MintOne)
  }

  /** `main()`, where `currentTokenId` and `maxBatchMint` are what the
      contract reported and `send` sends a mint and waits for its receipt.  A
      batch whose receipt has no BatchMinted event leaves the ids undefined,
      and reading them fails. */
  function Main(argv: seq<string>, currentTokenId: nat, maxBatchMint: nat,
                send: MintCall -> Result<Receipt, string>): Outcome {
    var options := Parse(argv);
    match Check(options, maxBatchMint)
    case Err(e) => Failure(e)
    case Ok(call) =>
      match send(call)
      case Err(e) => Failure(e)
      case Ok(receipt) =>
        var ids := if options.mintType == BATCH then receipt.batchIds else Some([currentTokenId + 1]);
        match ids
        case None => Failure(NO_IDS)
        case Some(tokenIds) =>
          Success(receipt.hash, seq(|tokenIds|, i requires 0 <= i < |tokenIds| => NatToString(tokenIds[i])))
  }

  // ---------------------------------------------------------- properties

  /** Without "--batch" the options are the defaults: one single mint. */
  lemma DefaultsWithoutFlag(argv: seq<string>)
    ensures BATCH_FLAG !in Relevant(argv) <==> Parse(argv) == Options(SINGLE, 1)
  {
  }

  /** Only the arguments after the first "mint.js" are read, so a "--batch"
      before it is ignored; without "mint.js" every argument is read. */
  lemma {:induction false} ArgumentsAfterScript(before: seq<string>, after: seq<string>)
    requires SCRIPT !in before
    ensures Relevant(before + [SCRIPT] + after) == after
    ensures BATCH_FLAG !in after ==> Parse(before + [SCRIPT] + after) == Options(SINGLE, 1)
    ensures Relevant(before) == before
  {
    var argv := before + [SCRIPT] + after;
    assert argv[|before|] == SCRIPT;
    assert argv[..|before|] == before;
    assert argv[|before| + 1..] == after;
  }

  /** The numeral of an integer is not the script name. */
  lemma NumeralIsNotScript(n: int)
    ensures IntToString(n) != SCRIPT
  {
    var s := IntToString(n);
    if n >= 0 {
      assert DigitValue(NatToString(n)[0]) < 10;
    }
    assert s[0] != 'm';
  }

  /** Where the flag is, when the script name is absent: the argument after
      it, if any, gives the quantity. */
  lemma FlagPosition(before: seq<string>, rest: seq<string>)
    requires BATCH_FLAG !in before && SCRIPT !in before && SCRIPT !in rest
    ensures var argv := before + [BATCH_FLAG] + rest;
      Parse(argv) == Options(BATCH, if |rest| > 0 then QuantityOf(rest[0]) else 1)
  {
    var argv := before + [BATCH_FLAG] + rest;
    assert SCRIPT !in argv;
    assert Relevant(argv) == argv;
    assert argv[|before|] == BATCH_FLAG;
    assert argv[..|before|] == before;
    assert IndexOf(argv, BATCH_FLAG) == |before|;
  }

  /** The quantity follows "--batch": a positive or negative number written
      there is the quantity; a missing argument and 0 give 1. */
  lemma BatchQuantity(before: seq<string>, after: seq<string>, n: int)
    requires BATCH_FLAG !in before && SCRIPT !in before && SCRIPT !in after
    ensures Parse(before + [BATCH_FLAG]) == Options(BATCH, 1)
    ensures n != 0 ==> Parse(before + [BATCH_FLAG] + [IntToString(n)] + after) == Options(BATCH, n)
    ensures n == 0 ==> Parse(before + [BATCH_FLAG] + [IntToString(n)] + after) == Options(BATCH, 1)
  {
    FlagPosition(before, []);
    assert before + [BATCH_FLAG] + [] == before + [BATCH_FLAG];
    NumeralIsNotScript(n);
    FlagPosition(before, [IntToString(n)] + after);
    assert before + [BATCH_FLAG] + [IntToString(n)] + after == before + [BATCH_FLAG] + ([IntToString(n)] + after);
    ParseIntOfIntToString(n);
  }

  /** Text that parseInt cannot read gives the quantity 1. */
  lemma UnreadableQuantity(before: seq<string>, arg: string, after: seq<string>)
    requires BATCH_FLAG !in before && SCRIPT !in before && SCRIPT !in after && arg != SCRIPT
    requires ParseIntStr(arg).NaN?
    ensures Parse(before + [BATCH_FLAG] + [arg] + after) == Options(BATCH, 1)
  {
    FlagPosition(before, [arg] + after);
    assert before + [BATCH_FLAG] + [arg] + after == before + [BATCH_FLAG] + ([arg] + after);
  }

  /** A batch above the limit is refused before anything is sent, whatever
      the contract would have answered; every other batch sends exactly the
      parsed quantity. */
  lemma LimitBeforeSend(argv: seq<string>, currentTokenId: nat, maxBatchMint: nat,
                        send1: MintCall -> Result<Receipt, string>, send2: MintCall -> Result<Receipt, string>)
    ensures var o := Parse(argv);
      o.mintType == BATCH && o.quantity > maxBatchMint ==>
        Main(argv, currentTokenId, maxBatchMint, send1) == Main(argv, currentTokenId, maxBatchMint, send2) &&
        Main(argv, currentTokenId, maxBatchMint, send1).Failure?
    ensures var o := Parse(argv);
      o.mintType == BATCH && o.quantity <= maxBatchMint ==> Check(o, maxBatchMint) == Ok(MintMany(o.quantity))
    ensures var o := Parse(argv);
      o.mintType != BATCH <==> Check(o, maxBatchMint) == Ok(MintOne)
  {
  }

  /** A single mint reports the one id after the current one, read back as a
      number. */
  lemma SingleMintId(argv: seq<string>, currentTokenId: nat, maxBatchMint: nat,
                     send: MintCall -> Result<Receipt, string>)
    requires Parse(argv).mintType != BATCH && send(MintOne).Ok?
    ensures var r := Main(argv, currentTokenId, maxBatchMint, send);
      r.Success? && |r.tokenIds| == 1 && ParseIntStr(r.tokenIds[0]) == Num(currentTokenId + 1)
  {
    ParseIntOfIntToString(currentTokenId + 1);
    assert IntToString(currentTokenId + 1) == NatToString(currentTokenId + 1);
  }

  /** A batch whose receipt lacks the BatchMinted event fails after the
      transaction went through. */
  lemma BatchWithoutEvent(argv: seq<string>, currentTokenId: nat, maxBatchMint: nat,
                          send: MintCall -> Result<Receipt, string>)
    requires Parse(argv).mintType == BATCH && Parse(argv).quantity <= maxBatchMint
    requires var s := send(MintMany(Parse(argv).quantity)); s.Ok? && s.value.batchIds.None?
    ensures Main(argv, currentTokenId, maxBatchMint, send) == Failure(NO_IDS)
  {
  }
}
