/**
 * `batchMint`: checks the recipients, keeps the valid ones, cuts them into
 * batches and mints one NFT per recipient with metadata numbered by the
 * recipient's position.  The contract and the per-recipient validation are
 * parameters: `valid(to)` is what `validateMint` decided for a recipient,
 * `mint(to, metadata)` what `mintFromTemplate` returned or the message of
 * the error it threw, and `price` the template's price in wei.
 */
module BatchMint {
  import opened Wrappers
  import opened Js
  import opened Ether
  import GenerateMetadata

  datatype Params = Params(templateId: Json, recipients: Json, metadata: Json)

  /** `batchSize` 0 stands for an absent option, replaced by the default. */
  datatype Options = Options(skipInvalid: Json, batchSize: nat)

  datatype Receipt = Receipt(tokenId: Json, metadataURI: Json, transactionHash: Json)

  /** One entry of the report's `results`. */
  datatype MintResult =
    | Minted(recipient: Json, receipt: Receipt)
    | Failed(recipient: Json, error: string)

  datatype Report = Report(
    templateId: Json, totalAttempted: nat, successfulMints: nat, failedMints: nat,
    batchCount: nat, batchSize: nat, totalCost: string, results: seq<MintResult>)

  const DEFAULT_BATCH_SIZE: nat := 50
  const DEFAULT_NAME := "WaveX NFT"

  // ------------------------------------------------------------ recipients

  /** `results.filter(r => r.valid).map(r => r.recipient)` */
  function ValidOnes(recipients: seq<Json>, valid: Json -> bool): (r: seq<Json>)
    ensures |r| <= |recipients|
  {
    if |recipients| == 0 then []
    else (if valid(recipients[0]) then [recipients[0]] else []) + ValidOnes(recipients[1..], valid)
  }

  /** The valid recipients, in their order: a subsequence that keeps every
      valid recipient, and all of them when every one is valid. */
  lemma {:induction false} ValidOnesExact(recipients: seq<Json>, valid: Json -> bool)
    ensures forall x :: x in ValidOnes(recipients, valid) <==> x in recipients && valid(x)
    ensures (forall x | x in recipients :: valid(x)) ==> ValidOnes(recipients, valid) == recipients
  {
    if |recipients| > 0 {
      ValidOnesExact(recipients[1..], valid);
      assert recipients == [recipients[0]] + recipients[1..];
    }
  }

  /** `invalidCount > 0` */
  predicate SomeInvalid(recipients: seq<Json>, valid: Json -> bool) {
    exists x | x in recipients :: !valid(x)
  }

  // --------------------------------------------------------------- batches

  /** The batches the loop `for (i = 0; i < n; i += size)` slices. */
  function Chunks(items: seq<Json>, size: nat): (r: seq<seq<Json>>)
    requires size > 0
    decreases |items|
  {
    if |items| == 0 then []
    else if |items| <= size then [items]
    else [items[..size]] + Chunks(items[size..], size)
  }

  /** The `k`-th batch starts at `k * size`; every batch but the last holds
      exactly `size` items, and the last ends the list. */
  lemma {:induction false} ChunkAt(items: seq<Json>, size: nat, k: nat)
    requires size > 0 && k < |Chunks(items, size)|
    ensures var c := Chunks(items, size);
      k * size < |items| && 0 < |c[k]| <= size &&
      k * size + |c[k]| <= |items| && c[k] == items[k * size .. k * size + |c[k]|] &&
      (k < |c| - 1 ==> |c[k]| == size && (k + 1) * size == k * size + |c[k]|) &&
      (k == |c| - 1 ==> k * size + |c[k]| == |items|)
    decreases k
  {
    assert (k + 1) * size == k * size + size;
    if k > 0 {
      var rest := items[size..];
      ChunkAt(rest, size, k - 1);
      assert (k - 1) * size + size == k * size;
      assert rest[(k - 1) * size .. (k - 1) * size + |Chunks(items, size)[k]|] ==
             items[k * size .. k * size + |Chunks(items, size)[k]|];
    }
  }

  /** `ceil(n / size)` for whole numbers. */
  function CeilDiv(n: nat, size: nat): nat
    requires size > 0
  {
    (n + size - 1) / size
  }

  /** There are `ceil(n / size)` batches. */
  lemma {:induction false} ChunkCount(items: seq<Json>, size: nat)
    requires size > 0
    ensures |Chunks(items, size)| == CeilDiv(|items|, size)
    decreases |items|
  {
    if |items| > size {
      ChunkCount(items[size..], size);
      var m := |items| - size;
      assert (m + size - 1) + size == |items| + size - 1;
      DivStep(m + size - 1, size);
    } else if |items| > 0 {
      assert size <= |items| + size - 1 < 2 * size;
    }
  }

  lemma DivStep(a: nat, d: nat)
    requires d > 0
    ensures (a + d) / d == a / d + 1
  {
    var q, r := a / d, a % d;
    assert a + d == (q + 1) * d + r;
    DivModOf(q + 1, r, d);
  }

  lemma {:induction false} MulAtLeast(t: int, d: int)
    requires t >= 1 && d > 0
    ensures t * d >= d
    decreases t
  {
    if t > 1 {
      MulAtLeast(t - 1, d);
      assert t * d == (t - 1) * d + d;
    }
  }

  /** Euclidean division recovers quotient and remainder. */
  lemma DivModOf(q: nat, r: nat, d: nat)
    requires r < d
    ensures (q * d + r) / d == q && (q * d + r) % d == r
  {
    var x := q * d + r;
    var t := x / d - q;
    var s := x % d;
    assert x == (x / d) * d + s;
    assert t * d == r - s;
    if t > 0 {
      MulAtLeast(t, d);
    } else if t < 0 {
      MulAtLeast(-t, d);
    }
  }

  /** Putting the batches back together gives the list. */
  lemma {:induction false} ChunksRestore(items: seq<Json>, size: nat)
    requires size > 0
    ensures Flatten(Chunks(items, size)) == items
    decreases |items|
  {
    if |items| > size {
      ChunksRestore(items[size..], size);
      FlattenCons(items[..size], Chunks(items[size..], size));
      assert items[..size] + items[size..] == items;
    } else if |items| > 0 {
      FlattenCons(items, []);
    }
  }

  function Flatten(parts: seq<seq<Json>>): seq<Json> {
    if |parts| == 0 then [] else Flatten(parts[..|parts| - 1]) + parts[|parts| - 1]
  }

  lemma {:induction false} FlattenCons(first: seq<Json>, rest: seq<seq<Json>>)
    ensures Flatten([first] + rest) == first + Flatten(rest)
    decreases |rest|
  {
    if |rest| > 0 {
      var n := |rest| - 1;
      FlattenCons(first, rest[..n]);
      assert ([first] + rest)[..n + 1] == [first] + rest[..n];
    }
  }

  /** The batching loop. */
  method Chunk(items: seq<Json>, size: nat) returns (batches: seq<seq<Json>>)
    requires size > 0
    ensures batches == Chunks(items, size)
  {
    batches := [];
    var i := 0;
    while i < |items|
      invariant 0 <= i
      invariant i < |items| ==> batches + Chunks(items[i..], size) == Chunks(items, size)
      invariant i >= |items| ==> batches == Chunks(items, size)
      decreases |items| - i
    {
      var end := if i + size < |items| then i + size else |items|;
      var batch := items[i..end];
      if i + size < |items| {
        assert items[i..][..size] == batch && items[i..][size..] == items[i + size..];
        assert Chunks(items[i..], size) == [batch] + Chunks(items[i + size..], size);
      } else {
        assert batch == items[i..];
        assert Chunks(items[i..], size) == [batch];
      }
      batches := batches + [batch];
      i := i + size;
    }
    if |items| == 0 {
      assert batches == [] == Chunks(items, size);
    }
  }

  // ------------------------------------------------------------- minting

  /** The metadata of the NFT at `index` in batch `chunk` of `count`: the
      caller's metadata, named after its position, with the two batch
      attributes after the caller's attributes.  Spreading attributes that
      are not iterable throws, and the recipient's mint fails. */
  function NftMetadata(md: Json, chunk: nat, index: nat, size: nat, count: nat): Result<Json, string> {
    var name := Show(Or(Get(md, "name"), Str(DEFAULT_NAME))) + " #" + Show(Num(chunk * size + index + 1));
    match SpreadItems(Or(Get(md, "attributes"), Arr([])))
    case Err(e) => Err(e)
    case Ok(items) =>
      var batchAttrs := [GenerateMetadata.Attr("Batch", Str(Show(Num(chunk + 1)) + "/" + Show(Num(count)))),
                         GenerateMetadata.Attr("Batch Index", Num(index + 1))];
      Ok(Obj(Put(Put(SpreadFields(md), "name", Str(name)), "attributes", Arr(items + batchAttrs))))
  }

  /** What the mint of one recipient reports. */
  function Outcome(to: Json, md: Json, chunk: nat, index: nat, size: nat, count: nat,
                   mint: (Json, Json) -> Result<Receipt, string>): (r: MintResult)
    ensures r.recipient == to
    ensures r.Minted? <==> NftMetadata(md, chunk, index, size, count).Ok? &&
                           mint(to, NftMetadata(md, chunk, index, size, count).value).Ok?
  {
    match NftMetadata(md, chunk, index, size, count)
    case Err(e) => Failed(to, e)
    case Ok(m) =>
      match mint(to, m)
      case Ok(receipt) => Minted(to, receipt)
      case Err(e) => Failed(to, e)
  }

  /** The callback each batch maps over its recipients: the result for a
      recipient at `index` of batch `chunk`. */
  function Step(md: Json, size: nat, count: nat, mint: (Json, Json) -> Result<Receipt, string>): (Json, nat, nat) -> MintResult {
    (to: Json, chunk: nat, index: nat) => Outcome(to, md, chunk, index, size, count, mint)
  }

  /** The result for every recipient, in recipient order: position `k` is
      index `k % size` of batch `k / size`. */
  function Outcomes(recipients: seq<Json>, size: nat, step: (Json, nat, nat) -> MintResult): (r: seq<MintResult>)
    requires size > 0
    ensures |r| == |recipients|
  {
    seq(|recipients|, k requires 0 <= k < |recipients| => step(recipients[k], k / size, k % size))
  }

  function Successes(results: seq<MintResult>): (n: nat)
    ensures n <= |results|
  {
    if |results| == 0 then 0
    else Successes(results[..|results| - 1]) + (if results[|results| - 1].Minted? then 1 else 0)
  }

  /** `mintPrice.mul(n)`: the price of one mint times the number of mints. */
  function TotalCost(price: nat, n: nat): nat {
    price * n
  }

  /** `options.batchSize || 50` */
  function BatchSize(o: Options): (size: nat)
    ensures size > 0
  {
    if o.batchSize != 0 then o.batchSize else DEFAULT_BATCH_SIZE
  }

  /** The recipients that are minted for, when the checks before minting pass. */
  function Recipients(p: Params, o: Options, valid: Json -> bool): Result<seq<Json>, string> {
    if !Truthy(p.templateId) || !p.recipients.Arr? then Err("Template ID and recipients array are required")
    else if SomeInvalid(p.recipients.items, valid) && !Truthy(o.skipInvalid) then
      Err("Batch contains invalid recipients. Set skipInvalid: true to proceed with valid ones only.")
    else
      var chosen := if Truthy(o.skipInvalid) then ValidOnes(p.recipients.items, valid) else p.recipients.items;
      if |chosen| == 0 then Err("No valid recipients to process") else Ok(chosen)
  }

  /** The report for the recipients minted for, cut into batches of `size`. */
  function Summary(templateId: Json, chosen: seq<Json>, md: Json, size: nat, price: nat,
                   mint: (Json, Json) -> Result<Receipt, string>): Report
    requires size > 0
  {
    var count := |Chunks(chosen, size)|;
    var results := Outcomes(chosen, size, Step(md, size, count, mint));
    Report(templateId, |chosen|, Successes(results), |results| - Successes(results),
           count, size, FormatEther(TotalCost(price, |chosen|)), results)
  }

  /** The report `batchMint(params, options)` resolves to. */
  function BatchReport(p: Params, o: Options, valid: Json -> bool, price: nat,
                       mint: (Json, Json) -> Result<Receipt, string>): Result<Report, string> {
    match Recipients(p, o, valid)
    case Err(e) => Err(e)
    case Ok(chosen) => Ok(Summary(p.templateId, chosen, p.metadata, BatchSize(o), price, mint))
  }

  /** Mints batch `i`, one recipient after another, after the `i * size`
      recipients of the batches before it. */
  method MintBatch(recipients: seq<Json>, batch: seq<Json>, i: nat, size: nat,
                   step: (Json, nat, nat) -> MintResult, before: seq<MintResult>, successesBefore: nat)
    returns (results: seq<MintResult>, successCount: nat)
    requires size > 0 && |batch| <= size && |before| == i * size && i * size + |batch| <= |recipients|
    requires batch == recipients[i * size .. i * size + |batch|]
    requires before == Outcomes(recipients[..|before|], size, step) && successesBefore == Successes(before)
    ensures |results| == i * size + |batch|
    ensures results == Outcomes(recipients[..|results|], size, step)
    ensures successCount == Successes(results)
  {
    results, successCount := before, successesBefore;
    var index := 0;
    while index < |batch|
      invariant 0 <= index <= |batch|
      invariant |results| == i * size + index
      invariant results == Outcomes(recipients[..|results|], size, step)
      invariant successCount == Successes(results)
    {
      DivModOf(i, index, size);
      var outcome := step(batch[index], i, index);
      assert (results + [outcome])[..|results|] == results;
      results := results + [outcome];
      if outcome.Minted? {
        successCount := successCount + 1;
      }
      index := index + 1;
    }
  }

  /** The batch loop: every batch in turn. */
  method MintAll(recipients: seq<Json>, batches: seq<seq<Json>>, size: nat, step: (Json, nat, nat) -> MintResult)
    returns (results: seq<MintResult>, successCount: nat, failureCount: nat)
    requires size > 0 && batches == Chunks(recipients, size)
    ensures results == Outcomes(recipients, size, step)
    ensures successCount == Successes(results) && failureCount == |results| - successCount
  {
    results, successCount := [], 0;
    var count := |batches|;
    var i := 0;
    while i < count
      invariant 0 <= i <= count
      invariant |results| == if i < count then i * size else |recipients|
      invariant |results| <= |recipients|
      invariant results == Outcomes(recipients[..|results|], size, step)
      invariant successCount == Successes(results)
    {
      ChunkAt(recipients, size, i);
      results, successCount := MintBatch(recipients, batches[i], i, size, step, results, successCount);
      i := i + 1;
    }
    if count == 0 {
      assert |recipients| == 0;
    }
    assert recipients[..|results|] == recipients;
    failureCount := |results| - successCount;
  }

  /** The minting of `batchMint` once its recipients are chosen. */
  method MintReport(templateId: Json, recipients: seq<Json>, md: Json, size: nat, price: nat,
                    mint: (Json, Json) -> Result<Receipt, string>) returns (report: Report)
    requires size > 0
    ensures report == Summary(templateId, recipients, md, size, price, mint)
  {
    var totalCost := TotalCost(price, |recipients|);
    var batches := Chunk(recipients, size);
    var results, successCount, failureCount := MintAll(recipients, batches, size, Step(md, size, |batches|, mint));
    report := Report(templateId, |recipients|, successCount, failureCount, |batches|, size,
                     FormatEther(totalCost), results);
  }

  /** `batchMint(params, options)`. */
  method BatchMintRun(p: Params, o: Options, valid: Json -> bool, price: nat,
                      mint: (Json, Json) -> Result<Receipt, string>) returns (r: Result<Report, string>)
    ensures r == BatchReport(p, o, valid, price, mint)
  {
    var chosen := Recipients(p, o, valid);
    if chosen.Err? {
      return Err(chosen.error);
    }
    var report := MintReport(p.templateId, chosen.value, p.metadata, BatchSize(o), price, mint);
    r := Ok(report);
  }

  // ------------------------------------------------------------ as written

  /** The ethers release the script runs against.  Version 6 returns the
      template's price as a `bigint`, which has no `mul` method; version 5
      returns a `BigNumber`, but has no top-level `formatEther`. */
  datatype Ethers = EthersV5 | EthersV6

  const MUL_MISSING := "mintPrice.mul is not a function"
  const FORMAT_ETHER_MISSING := "hre.ethers.formatEther is not a function"

  /** `batchMint(params, options)` as written: after the checks and
      `getTemplate`, the total cost is computed with `mintPrice.mul` and
      printed with `hre.ethers.formatEther`, and one of the two is missing
      from either ethers release, so the call throws before any mint. */
  function BatchReportAsWritten(p: Params, o: Options, valid: Json -> bool, ethers: Ethers): (r: Result<Report, string>)
    ensures r.Err?
  {
    match Recipients(p, o, valid)
    case Err(e) => Err(e)
    case Ok(_) => Err(if ethers.EthersV6? then MUL_MISSING else FORMAT_ETHER_MISSING)
  }

  /** The script as written fails with a `TypeError` exactly where the model
      of the intended script produces a report, and with the same message
      where the intended script refuses its input. */
  lemma AsWrittenNeverMints(p: Params, o: Options, valid: Json -> bool, ethers: Ethers, price: nat,
                            mint: (Json, Json) -> Result<Receipt, string>)
    ensures BatchReport(p, o, valid, price, mint).Ok? ==>
      BatchReportAsWritten(p, o, valid, ethers) == Err(if ethers.EthersV6? then MUL_MISSING else FORMAT_ETHER_MISSING)
    ensures BatchReport(p, o, valid, price, mint).Err? ==>
      BatchReportAsWritten(p, o, valid, ethers) == BatchReport(p, o, valid, price, mint)
  {
  }

  /** One valid recipient: the intended script mints and reports, the script
      as written throws under either ethers release. */
  lemma AsWrittenOneRecipient(ethers: Ethers, price: nat, mint: (Json, Json) -> Result<Receipt, string>)
    ensures var p := Params(Str("1"), Arr([Str("0x1")]), Obj([]));
      var o := Options(Bool(false), 0);
      var valid := (to: Json) => true;
      BatchReport(p, o, valid, price, mint).Ok? &&
      BatchReport(p, o, valid, price, mint).value.totalAttempted == 1 &&
      BatchReportAsWritten(p, o, valid, ethers).Err? &&
      BatchReportAsWritten(p, o, valid, ethers).error in {MUL_MISSING, FORMAT_ETHER_MISSING}
  {
    var p := Params(Str("1"), Arr([Str("0x1")]), Obj([]));
    var valid := (to: Json) => true;
    assert !SomeInvalid(p.recipients.items, valid);
  }

  // ------------------------------------------------------------ properties

  /** A missing template id or a recipients value that is not an array is
      refused; so is any invalid recipient without `skipInvalid`, and an
      empty list of recipients to mint for. */
  lemma RefusedInputs(p: Params, o: Options, valid: Json -> bool, price: nat,
                      mint: (Json, Json) -> Result<Receipt, string>)
    ensures !Truthy(p.templateId) || !p.recipients.Arr? ==>
      BatchReport(p, o, valid, price, mint) == Err("Template ID and recipients array are required")
    ensures Truthy(p.templateId) && p.recipients.Arr? && SomeInvalid(p.recipients.items, valid) && !Truthy(o.skipInvalid) ==>
      BatchReport(p, o, valid, price, mint).Err?
    ensures Truthy(p.templateId) && p.recipients.Arr? && |p.recipients.items| == 0 ==>
      BatchReport(p, o, valid, price, mint) == Err("No valid recipients to process")
  {
    if Truthy(p.templateId) && p.recipients.Arr? && |p.recipients.items| == 0 {
      assert !SomeInvalid(p.recipients.items, valid);
    }
  }

  /** With `skipInvalid` the minted recipients are exactly the valid ones, in
      order; without it every recipient is minted for. */
  lemma ChosenRecipients(p: Params, o: Options, valid: Json -> bool)
    requires Recipients(p, o, valid).Ok?
    ensures var chosen := Recipients(p, o, valid).value;
      |chosen| > 0 &&
      (Truthy(o.skipInvalid) ==> chosen == ValidOnes(p.recipients.items, valid)) &&
      (!Truthy(o.skipInvalid) ==> chosen == p.recipients.items) &&
      forall x | x in chosen :: valid(x)
  {
    ValidOnesExact(p.recipients.items, valid);
  }

  /** The figures of the report: one attempt per recipient, successes and
      failures adding up, `ceil(n / size)` batches, and the price of each
      mint times the number of recipients. */
  lemma ReportFigures(templateId: Json, chosen: seq<Json>, md: Json, size: nat, price: nat,
                      mint: (Json, Json) -> Result<Receipt, string>)
    requires size > 0
    ensures var report := Summary(templateId, chosen, md, size, price, mint);
      report.totalAttempted == |chosen| && |report.results| == |chosen| &&
      report.successfulMints + report.failedMints == |chosen| &&
      report.batchCount == CeilDiv(|chosen|, size) && report.batchSize == size &&
      report.totalCost == FormatEther(TotalCost(price, |chosen|))
  {
    ChunkCount(chosen, size);
  }

  /** Quotient and remainder put a number back together. */
  lemma DivModSplit(k: nat, d: nat)
    requires d > 0
    ensures (k / d) * d + k % d == k && 0 <= k / d && 0 <= k % d < d
  {
  }

  /** A position below `n` falls in one of the `ceil(n / d)` batches. */
  lemma QuotientBelowCeil(k: nat, n: nat, d: nat)
    requires d > 0 && k < n
    ensures k / d < CeilDiv(n, d)
  {
    var q := k / d;
    DivModSplit(k, d);
    assert (q + 1) * d == q * d + d;
    var m := n + d - 1 - (q + 1) * d;
    DivModSplit(m, d);
    assert n + d - 1 == (q + 1 + m / d) * d + m % d;
    DivModOf(q + 1 + m / d, m % d, d);
  }

  /** Item `k` of the list is item `k % size` of batch `k / size`. */
  lemma {:induction false} ChunkLocation(items: seq<Json>, size: nat, k: nat)
    requires size > 0 && k < |items|
    ensures var c := Chunks(items, size);
      k / size < |c| && k % size < |c[k / size]| && c[k / size][k % size] == items[k]
  {
    var c := Chunks(items, size);
    var chunk, index := k / size, k % size;
    DivModSplit(k, size);
    ChunkCount(items, size);
    QuotientBelowCeil(k, |items|, size);
    ChunkAt(items, size, chunk);
    var start := chunk * size;
    assert start + index == k;
    SliceAt(items, start, start + |c[chunk]|, index);
  }

  /** Result `k` is recipient `k`'s, minted as item `k % size` of batch
      `k / size`, which holds that recipient. */
  lemma ResultsInOrder(recipients: seq<Json>, md: Json, size: nat, mint: (Json, Json) -> Result<Receipt, string>, k: nat)
    requires size > 0 && k < |recipients|
    ensures var c := Chunks(recipients, size);
      var r := Outcomes(recipients, size, Step(md, size, |c|, mint))[k];
      r.recipient == recipients[k] && k / size < |c| && k % size < |c[k / size]| &&
      r == Outcome(c[k / size][k % size], md, k / size, k % size, size, |c|, mint)
  {
    var c := Chunks(recipients, size);
    DivModSplit(k, size);
    ChunkLocation(recipients, size, k);
    OutcomeAt(recipients, size, Step(md, size, |c|, mint), k);
    StepIsOutcome(recipients[k], md, k / size, k % size, size, |c|, mint);
  }

  /** Result `k` is what the callback gives for recipient `k`. */
  lemma OutcomeAt(recipients: seq<Json>, size: nat, step: (Json, nat, nat) -> MintResult, k: nat)
    requires size > 0 && k < |recipients|
    ensures Outcomes(recipients, size, step)[k] == step(recipients[k], k / size, k % size)
  {
  }

  /** The callback reports the mint of its recipient. */
  lemma StepIsOutcome(to: Json, md: Json, chunk: nat, index: nat, size: nat, count: nat,
                      mint: (Json, Json) -> Result<Receipt, string>)
    ensures Step(md, size, count, mint)(to, chunk, index) == Outcome(to, md, chunk, index, size, count, mint)
  {
  }

  lemma SliceAt(xs: seq<Json>, lo: nat, hi: nat, i: nat)
    requires lo <= hi <= |xs| && i < hi - lo
    ensures xs[lo..hi][i] == xs[lo + i]
  {
  }

  /** The NFT at `index` of batch `chunk` is named `#(chunk * size + index + 1)`,
      its position counted from one, after the caller's name or "WaveX NFT". */
  lemma NftName(md: Json, chunk: nat, index: nat, size: nat, count: nat)
    requires NftMetadata(md, chunk, index, size, count).Ok?
    ensures Get(NftMetadata(md, chunk, index, size, count).value, "name") ==
      Str(Show(Or(Get(md, "name"), Str(DEFAULT_NAME))) + " #" + IntToString(chunk * size + index + 1))
  {
    var base := Show(Or(Get(md, "name"), Str(DEFAULT_NAME)));
    var items := SpreadItems(Or(Get(md, "attributes"), Arr([]))).value;
    var named := Put(SpreadFields(md), "name", Str(base + " #" + Show(Num(chunk * size + index + 1))));
    var batchAttrs := [GenerateMetadata.Attr("Batch", Str(Show(Num(chunk + 1)) + "/" + Show(Num(count)))),
                       GenerateMetadata.Attr("Batch Index", Num(index + 1))];
    var after := Put(named, "attributes", Arr(items + batchAttrs));
    PutOther(named, "attributes", after, "name");
  }

  /** The two batch attributes close the attribute list, after the caller's:
      "Batch" is `chunk + 1` of `count`, "Batch Index" is `index + 1`. */
  lemma BatchAttributes(md: Json, chunk: nat, index: nat, size: nat, count: nat)
    requires NftMetadata(md, chunk, index, size, count).Ok?
    ensures var m := NftMetadata(md, chunk, index, size, count).value;
      var attrs := Get(m, "attributes");
      var own := SpreadItems(Or(Get(md, "attributes"), Arr([]))).value;
      attrs.Arr? && |attrs.items| == |own| + 2 && attrs.items[..|own|] == own &&
      Get(attrs.items[|own|], "trait_type") == Str("Batch") &&
      Get(attrs.items[|own|], "value") == Str(IntToString(chunk + 1) + "/" + IntToString(count)) &&
      Get(attrs.items[|own| + 1], "trait_type") == Str("Batch Index") &&
      Get(attrs.items[|own| + 1], "value") == Num(index + 1)
  {
  }
}
