# WaveX NFT in Dafny

WaveX NFT issues membership and event passes as non-fungible tokens. This
project models two parts of it and proves properties of each.

- **The Solana program** (`wavex-nft`, an Anchor program). It keeps a
  `ProgramState` singleton with two counters. It creates `Template` and
  `Event` records and mints one token per pass. With each mint it seeds a
  `Balance` record, whose address is derived from the token account.
- **The deterministic parts of the off-chain JavaScript scripts**:
  - building, validating, merging and repairing JSON metadata for NFTs,
    templates and events;
  - the benefit-parameter validator;
  - event status and event listing (filter, sort, paginate);
  - batch-mint chunking;
  - the argument and environment parsers of the admin and mint scripts;
  - filling in Apple Wallet passes.

Modules, one per source file:

| module | file | models |
|---|---|---|
| `Wrappers` | wrappers.dfy | `Option` and `Result` |
| `Js` | js.dfy | JavaScript values and the runtime pieces the scripts rely on: `Json` (undefined, null, booleans, integers, NaN, strings, arrays, objects as ordered pairs), truthiness, `String()`, `parseInt`, `Number`, `isNaN`, property reads and spreads, `split`/`trim`/`join`, ASCII case mapping |
| `WavexProgram` | wavex_program.dfy | the program as functions over a cluster of accounts: address derivation, account loading in Anchor's order, the four handlers, the error codes and the record sizes |
| `WavexLedger` | ledger.dfy | the same handlers as methods of a `Ledger` class whose maps of records they update; its constructor is the model's starting state, a cluster holding only empty token accounts |
| `WavexProperties` | wavex_properties.dfy | the properties of the program: checks and their order, effects, preserved invariants, the template-address gap |
| `BenefitTypes` | benefit_types.dfy | `scripts/utils/benefitTypes.js` |
| `BenefitRange` | benefit_range.dfy | the `TOKEN_RANGE` parsers and the variable check of `scripts/admin/addBatchBenefits.js` and `scripts/admin/verifyBenefits.js` |
| `MintArgs` | mint_args.dfy | `scripts/mint.js` |
| `CardMetadata` | card_metadata.dfy | the `MetadataTemplates` of `scripts/metadata/generateMetadata.js` |
| `PassManager` | pass_manager.dfy | `scripts/apple-wallet/passManager.js` and its template |
| `Ether` | ether.dfy | the text `formatEther` gives for an amount of wei, where the scripts print prices and costs |
| `EventConfig` | event_config.dfy | `V2/scripts/config/eventConfig.js` |
| `ConfigValidator` | config_validator.dfy | `V2/scripts/utils/configValidator.js` |
| `GenerateMetadata` | generate_metadata.dfy | `V2/scripts/metadata/generateMetadata.js` |
| `ValidateMetadata` | validate_metadata.dfy | `V2/scripts/metadata/validateMetadata.js` |
| `UpdateMetadata` | update_metadata.dfy | `mergeAttributes` and `updateMetadata` |
| `RepairMetadata` | repair_metadata.dfy | `validateAndRepairMetadata` |
| `AssetMetadata` | asset_metadata.dfy | the validate, generate and update code that `templateMetadata.js` and `eventMetadata.js` share |
| `TemplateMetadata`, `EventMetadata` | template_metadata.dfy, event_metadata.dfy | the constants and attribute lists of those two files |
| `EventDetails` | event_details.dfy | `V2/scripts/events/getEventDetails.js` |
| `ListEvents` | list_events.dfy | `V2/scripts/events/listEvents.js` |
| `BatchMint` | batch_mint.dfy | `V2/scripts/mint/batchMint.js` |

Where the source changes things in place, the model uses methods. This
covers:
- the program's handlers;
- the `result` object of the metadata validator;
- the option parsing of `mint.js`;
- the loops of `mergeAttributes`, the repair passes and batch minting;
- the tracking update of the event list;
- the pass filling.

Each such method is proved equal to a specification function, and the
properties are proved about that function. Everything else is written
as functions and lemmas.

What a script reads from outside is a parameter of the model. This covers
the clock, environment variables, stored files, contract calls and their
receipts, and the answer typed at a prompt.

The program has no authority check. Any signer can create templates and
events, the stored `authority` is never compared with the signer, and
`NotAuthorized` is never raised
(`WavexProperties.AnySignerCreatesTemplate`,
`WavexProperties.NeverNotAuthorized`).

## Model

| member | source | states |
|---|---|---|
| WavexProgram.LeBytesRoundTrip | V2/solana-program/wavex-nft/programs/wavex-nft/src/lib.rs:218 | the eight little-endian bytes of a u64 template id read back as that id |
| WavexProgram.LeDigitsValue | V2/solana-program/wavex-nft/programs/wavex-nft/src/lib.rs:218 | the k low bytes of any n below 256^k read back as n |
| WavexProgram.TemplateAddressInjective | V2/solana-program/wavex-nft/programs/wavex-nft/src/lib.rs:216-222 | distinct template ids derive distinct template addresses |
| WavexProgram.ErrorCode | V2/solana-program/wavex-nft/programs/wavex-nft/src/lib.rs:316-340 | every code lies in 6000..6010; 6000 is exactly InvalidDiscount and 6010 exactly NotAuthorized |
| WavexProperties.ErrorCodesInDeclarationOrder | V2/solana-program/wavex-nft/programs/wavex-nft/src/lib.rs:316-340 | the variant declared at position `i` has code `6000 + i`, every variant is declared, and none twice |
| WavexProgram.LoadState | V2/solana-program/wavex-nft/programs/wavex-nft/src/lib.rs:177-178 | a `program_state` account loads exactly when the address holds a program state record, and yields that record |
| WavexProgram.LoadTemplate | V2/solana-program/wavex-nft/programs/wavex-nft/src/lib.rs:216-222 | a `template` account loads exactly when the address holds a template record, and yields that record |
| WavexProgram.LoadToken | V2/solana-program/wavex-nft/programs/wavex-nft/src/lib.rs:213-214 | a `token_account` loads exactly when the address holds a token account, and yields its units |
| WavexProperties.InitializeSpec | V2/solana-program/wavex-nft/programs/wavex-nft/src/lib.rs:14-20 | succeeds exactly when authority and new account both sign and the account is fresh; the record holds the signer and zero counters; nothing else changes (also lines 153-166) |
| WavexProperties.CreateTemplateChecks | V2/solana-program/wavex-nft/programs/wavex-nft/src/lib.rs:23-38 | with the accounts in order: a discount above 100 fails with InvalidDiscount, then an empty name with EmptyName; it succeeds exactly when both pass and the counter can grow |
| WavexProperties.CreateTemplateEffect | V2/solana-program/wavex-nft/programs/wavex-nft/src/lib.rs:35-49 | success adds one to `template_count`, keeps `event_count` and the authority, stores every argument in an active template owned by the signer, touches nothing else |
| WavexProperties.CreateEventChecks | V2/solana-program/wavex-nft/programs/wavex-nft/src/lib.rs:53-66 | an empty name fails with EmptyName, then a zero capacity with InvalidCapacity; success exactly when both pass and the counter can grow |
| WavexProperties.CreateEventEffect | V2/solana-program/wavex-nft/programs/wavex-nft/src/lib.rs:63-76 | success adds one to `event_count`, keeps `template_count`, stores an active, unsold event with the arguments, owned by the signer, touches nothing else |
| WavexProperties.AnySignerCreatesTemplate | V2/solana-program/wavex-nft/programs/wavex-nft/src/lib.rs:168-184 | whether `create_template` succeeds does not depend on which key signs: the stored authority is never checked |
| WavexProperties.AnySignerCreatesEvent | V2/solana-program/wavex-nft/programs/wavex-nft/src/lib.rs:186-202 | the same for `create_event` |
| WavexProperties.NeverNotAuthorized | V2/solana-program/wavex-nft/programs/wavex-nft/src/lib.rs:338-339 | no instruction ever fails with NotAuthorized |
| WavexProperties.MintNftChecks | V2/solana-program/wavex-nft/programs/wavex-nft/src/lib.rs:80-92 | with the accounts loaded: an inactive template fails first (account constraint), then an empty name, symbol, uri in that order; otherwise the mint succeeds (also lines 216-221) |
| WavexProperties.MintNftEffect | V2/solana-program/wavex-nft/programs/wavex-nft/src/lib.rs:124-149 | success adds one unit to the token account and creates the balance at its derived address with the template's base balance, owned by the signer; nothing else changes |
| WavexProperties.MintNftOnce | V2/solana-program/wavex-nft/programs/wavex-nft/src/lib.rs:224-231 | after a successful mint to a token account, every later mint to it fails (its balance address is taken) |
| WavexProperties.ExecutePreservesWellFormed | V2/solana-program/wavex-nft/programs/wavex-nft/src/lib.rs:14-150 | every instruction keeps the store well formed (valid templates and events, each balance at its token account's derived address) |
| WavexProperties.RunPreservesWellFormed | V2/solana-program/wavex-nft/programs/wavex-nft/src/lib.rs:14-150 | any sequence of transactions keeps the store well formed |
| WavexProperties.OneBalancePerTokenAccount | V2/solana-program/wavex-nft/programs/wavex-nft/src/lib.rs:224-231 | in a well-formed store two balances of the same token account are the same account |
| WavexProperties.ExecuteKeepsNoPdaTemplates | V2/solana-program/wavex-nft/programs/wavex-nft/src/lib.rs:168-175 | no instruction puts a template at a derived address (`init` without seeds needs the new account's signature) |
| WavexProperties.MintNftNeedsPdaTemplate | V2/solana-program/wavex-nft/programs/wavex-nft/src/lib.rs:216-222 | `mint_nft` fails on every store without a template at a derived address |
| WavexProperties.MintNeverFindsTemplate | V2/solana-program/wavex-nft/programs/wavex-nft/src/lib.rs:168-175 | from a cluster without templates at derived addresses, no sequence of transactions leads to a successful `mint_nft` (also lines 216-222) |
| WavexProperties.CorrectedMintFindsTemplate | V2/solana-program/wavex-nft/programs/wavex-nft/src/lib.rs:216-222 | with templates created at `("template", template_count)`, the new template is found by `mint_nft` under the old counter, and the balance holds its base balance |
| WavexProperties.CorrectedTemplateAddress | V2/solana-program/wavex-nft/programs/wavex-nft/src/lib.rs:35-47 | the corrected `create_template` puts the new, active template at the address of the counter's old value and adds one to the counter |
| WavexProperties.CorrectedCreatePreservesWellFormed | V2/solana-program/wavex-nft/programs/wavex-nft/src/lib.rs:23-50 | the corrected `create_template` keeps the store well formed |
| WavexProperties.RecordLengths | V2/solana-program/wavex-nft/programs/wavex-nft/src/lib.rs:272-314 | `LEN` is 56, 155, 90 and 80 bytes for program state, template, event and balance |
| WavexProperties.ErrorCodesDistinct | V2/solana-program/wavex-nft/programs/wavex-nft/src/lib.rs:316-340 | distinct errors have distinct codes |
| WavexLedger.FailureOf | V2/solana-program/wavex-nft/programs/wavex-nft/src/lib.rs:14-150 | a transaction reports no failure exactly when it succeeded |
| WavexLedger.Ledger.Initialize | V2/solana-program/wavex-nft/programs/wavex-nft/src/lib.rs:14-20 | the cluster after the call is what `initialize` gives (unchanged on failure), and it stays valid |
| WavexLedger.Ledger.CreateTemplate | V2/solana-program/wavex-nft/programs/wavex-nft/src/lib.rs:23-50 | the cluster after the call is what `create_template` gives (unchanged on failure), and it stays valid |
| WavexLedger.Ledger.CreateEvent | V2/solana-program/wavex-nft/programs/wavex-nft/src/lib.rs:53-77 | the cluster after the call is what `create_event` gives (unchanged on failure), and it stays valid |
| WavexLedger.Ledger.MintNft | V2/solana-program/wavex-nft/programs/wavex-nft/src/lib.rs:80-150 | the cluster after the call is what `mint_nft` gives (unchanged on failure), and it stays valid |
| WavexLedger.Ledger.CreateTemplateAtPda | V2/solana-program/wavex-nft/programs/wavex-nft/src/lib.rs:23-50 | the corrected `create_template`, applied to the cluster in place |
| BenefitTypes.ValidateBenefitParams | scripts/utils/benefitTypes.js:35-39 | every success is `true`; a type with no configuration fails with "Invalid benefit type" and the type |
| BenefitTypes.KnownTypes | scripts/utils/benefitTypes.js:2-33 | a configuration exists for the numbers 0, 1 and 2 and for no other number |
| BenefitTypes.ValidateNumbers | scripts/utils/benefitTypes.js:35-54 | for numbers and a known type: validation succeeds exactly when the value and the duration both lie within the type's inclusive bounds |
| BenefitTypes.ValueCheckedFirst | scripts/utils/benefitTypes.js:41-51 | when both are out of range, the error reported is the value's ("Value must be between …") |
| BenefitTypes.ValueRejected | scripts/utils/benefitTypes.js:41-45 | under a known type, a value out of range fails with the value message naming the bounds and the type |
| BenefitTypes.AcceptedWithConfig | scripts/utils/benefitTypes.js:41-53 | under a known type, a value and a duration that do not compare out of range are accepted |
| BenefitTypes.NaNPassesValidation | scripts/utils/benefitTypes.js:41-51 | a value and a duration that are not numbers (NaN, undefined, non-numeric text) compare false against both bounds and are accepted |
| BenefitTypes.ValidateBenefitParamsStrict | scripts/utils/benefitTypes.js:35-54 | the validator with a number check: every success is `true` |
| BenefitTypes.StrictAcceptsExactlyInRange | scripts/utils/benefitTypes.js:35-54 | the strict validator accepts exactly the values and durations that convert to numbers within the bounds, and the original accepts every such input too |
| BenefitRange.TypeNames | scripts/admin/addBatchBenefits.js:100-101 | types 0, 1, 2 are named MERCHANT_ALLOWANCE, YACHT_EVENT, DISCOUNT; a NaN or any other number is UNKNOWN, and only those |
| BenefitRange.Range | scripts/admin/addBatchBenefits.js:189-190 | the list holds `end - start + 1` ids counting up from `start`, and none when an end is NaN or the count is not positive |
| BenefitRange.TokenIds | scripts/admin/addBatchBenefits.js:187-193 | every parsed id is a number or NaN |
| BenefitRange.MissingOf | scripts/admin/addBatchBenefits.js:178-180 | the missing names are exactly the listed names whose variable is unset or empty |
| BenefitRange.MissingNamedEvery | scripts/admin/addBatchBenefits.js:169-184 | the error names every unset variable and only those, in table order; without it all five are set |
| BenefitRange.NaNRefusedBeforeCall | scripts/admin/addBatchBenefits.js:195-198 | a prepared call holds only numeric ids; with the variables set, any NaN id refuses the run; a refused run never reaches the contract (also lines 112-156) |
| BenefitRange.RangeOfNumerals | scripts/admin/addBatchBenefits.js:188-190 | "first-last" gives the ids from first to last in order, none when last is below first |
| BenefitRange.DashedRange | scripts/admin/addBatchBenefits.js:188-190 | a range with one dash runs from the number of its first piece to that of its second |
| BenefitRange.ListOfNumerals | scripts/admin/addBatchBenefits.js:191-193 | a comma-separated list of whole numbers reads back as those numbers, in order |
| BenefitRange.ListPieces | scripts/admin/addBatchBenefits.js:191-193 | without a dash, id `i` is piece `i` of the comma split, trimmed and parsed |
| BenefitRange.ListOfPair | scripts/admin/addBatchBenefits.js:191-193 | a list of two pieces gives their two parsed ids |
| BenefitRange.VerifyPassesNaN | scripts/admin/verifyBenefits.js:41-50 | the verifier has no NaN check: "n,x" with a non-numeric x queries the ids n and NaN |
| BenefitRange.DashedNonNumberPasses | scripts/admin/addBatchBenefits.js:188-198 | "1-x" gives an empty id list, the NaN check finds nothing to refuse, and the call is prepared with no ids |
| BenefitRange.StrictRefusesNonNumericEnds | scripts/admin/addBatchBenefits.js:186-198 | the strict parser accepts only numeric ends and ids, agrees with the original when it accepts, refuses every list with a NaN id and every "n-x" with a non-numeric x |
| MintArgs.IndexOf | scripts/mint.js:9 | the first position of the argument, or -1 exactly when it is absent (also line 17) |
| MintArgs.Parse | scripts/mint.js:7-24 | the parsed quantity is never 0 (`parseInt(...) \|\| 1`) |
| MintArgs.MintOptions.constructor | scripts/mint.js:10-13 | the defaults: a single mint of one |
| MintArgs.ParseArgs | scripts/mint.js:7-24 | the options object, filled in step by step, holds the type and quantity `Parse` gives |
| MintArgs.DefaultsWithoutFlag | scripts/mint.js:15-23 | the options are the defaults exactly when "--batch" is not among the arguments read |
| MintArgs.ArgumentsAfterScript | scripts/mint.js:9 | only the arguments after the first "mint.js" are read, so a "--batch" before it is ignored; without "mint.js" all are read |
| MintArgs.BatchQuantity | scripts/mint.js:15-20 | "--batch" last gives a batch of 1; "--batch n" gives n for any non-zero integer, negative ones included, and 1 for 0 |
| MintArgs.UnreadableQuantity | scripts/mint.js:19 | text parseInt cannot read after "--batch" gives a batch of 1 |
| MintArgs.LimitBeforeSend | scripts/mint.js:59-80 | a batch above MAX_BATCH_MINT fails the same way whatever the contract would answer; any other batch sends exactly the parsed quantity; a single mint sends `mint()` |
| MintArgs.SingleMintId | scripts/mint.js:99-101 | a single mint reports one id, the current token id plus one (also lines 124-128) |
| MintArgs.BatchWithoutEvent | scripts/mint.js:86-98 | a batch whose receipt has no BatchMinted event fails reading the ids, after the transaction went through (also lines 127-135) |
| PassManager.EventTemplate | scripts/apple-wallet/passTemplate.js:2-54 | the EVENT template has no serial number, the team id from the environment, one primary, two secondary, two auxiliary and two back fields, the last holding the terms |
| PassManager.SetValue | scripts/apple-wallet/passManager.js:16-20 | writing a field's value keeps every key and label and changes only that value |
| PassManager.Lines | scripts/apple-wallet/passManager.js:23-25 | one line per benefit exactly when none is null or undefined; otherwise the error of reading `name` from the first such benefit |
| PassManager.AppleWalletManager.constructor | scripts/apple-wallet/passManager.js:6-9 | the manager keeps the certificate path and the password |
| PassManager.AppleWalletManager.CreateEventPass | scripts/apple-wallet/passManager.js:11-29 | a pass exactly when the event data is not null or undefined and its benefits are a list of objects; the pass is the template with the serial number `WAVEX-EVENT-<token>-<event>` and the name, date, time, location, token id and benefit lines written into the value slots, every key, label, colour and the terms unchanged; the errors otherwise |
| PassManager.AppleWalletManager.SignPass | scripts/apple-wallet/passManager.js:31-34 | signing resolves to undefined |
| PassManager.AppleWalletManager.GeneratePass | scripts/apple-wallet/passManager.js:36-39 | fails exactly where creating the pass fails, and otherwise resolves to undefined |
| PassManager.BenefitLinesSplitBack | scripts/apple-wallet/passManager.js:23-26 | no benefits give an empty back field; otherwise the joined text splits at line breaks back into one line per benefit |
| PassManager.SerialReadsBack | scripts/apple-wallet/passManager.js:15 | for whole-number ids the serial splits at dashes into "WAVEX", "EVENT" and the two numerals, which parse back to the ids |
| MintArgs.QuantityOf | scripts/mint.js:19 | `parseInt(arg) \|\| 1` is never 0 |
| CardMetadata.NftVisualRefuses | scripts/metadata/generateMetadata.js:10-33 | the visual card fails exactly when the attributes are null or undefined |
| CardMetadata.NftVisualName | scripts/metadata/generateMetadata.js:11 | the name is "WaveX Card #" and the token id's numeral, which parses back to the id |
| CardMetadata.NftVisualImage | scripts/metadata/generateMetadata.js:13 | the image is the given URL when it is truthy, and otherwise `ipfs://` and the hash |
| CardMetadata.NftVisualTraits | scripts/metadata/generateMetadata.js:14-32 | three attributes, tier, card type and issue date, in that order; the tier property repeats the tier; benefits default to `[]` and the design to "v1" |
| CardMetadata.PrepaidNeedsTextTier | scripts/metadata/generateMetadata.js:35-57 | the prepaid card exists exactly when the attributes are an object with a text tier; its design template is the tier lower-cased (same length, same letters up to case, no capitals), status ACTIVE and balance "0.00" |
| CardMetadata.WalletSerialAndColour | scripts/metadata/generateMetadata.js:62 | the serial is "WAVEX-" and the token id, which parses back; the background is black exactly for the tier "BLACK" and grey for every other tier (also line 67) |
| CardMetadata.WalletFields | scripts/metadata/generateMetadata.js:59-104 | the pass exists exactly when the attributes are an object whose benefits are absent or a list; it shows tier and card type, the expiry defaults to 12/2025, the back holds the benefits text |
| CardMetadata.BenefitsBackField | scripts/metadata/generateMetadata.js:100 | absent or empty benefits read "No benefits assigned"; a list of texts, one of them not empty, is joined with a backslash and an n, so the field has no line break unless a benefit has one; any other value throws |
| CardMetadata.OnlyTimestampsVary | scripts/metadata/generateMetadata.js:25 | two cards made at different times differ only in the issue date or the last update; failure does not depend on the time (also line 45) |
| Ether.FormatWholeEther | V2/scripts/events/getEventDetails.js:28 | a whole number of ether is written as its numeral followed by ".0" |
| Ether.FractionShape | V2/scripts/mint/batchMint.js:143 | the digits after the point are never empty, are "0" exactly for a whole amount, and otherwise do not end in 0 |
| BatchMint.ValidOnesExact | V2/scripts/mint/batchMint.js:38-41 | the filtered recipients are exactly the valid ones, and all of them when every recipient is valid |
| BatchMint.ChunkAt | V2/scripts/mint/batchMint.js:65-67 | batch `k` starts at `k * size`; it is not empty, every batch but the last holds exactly `size` recipients, and the last ends the list |
| BatchMint.ChunkCount | V2/scripts/mint/batchMint.js:65-67 | there are `ceil(n / size)` batches |
| BatchMint.ChunksRestore | V2/scripts/mint/batchMint.js:65-67 | the batches put back together give the recipients |
| BatchMint.Chunk | V2/scripts/mint/batchMint.js:63-67 | the slicing loop produces exactly the batches of `size` |
| BatchMint.Outcome | V2/scripts/mint/batchMint.js:78-123 | a result names its recipient, and is a success exactly when the metadata can be built and the mint returns |
| BatchMint.Outcomes | V2/scripts/mint/batchMint.js:74-127 | one result per recipient |
| BatchMint.BatchSize | V2/scripts/mint/batchMint.js:62 | the batch size is never 0 (`options.batchSize \|\| 50`) |
| BatchMint.MintBatch | V2/scripts/mint/batchMint.js:75-127 | after batch `i` the results are those of the first `i * size + |batch|` recipients in order, and the success count counts their successes |
| BatchMint.MintAll | V2/scripts/mint/batchMint.js:69-133 | the batch loop gives one result per recipient in recipient order, and the success and failure counts add up to the results |
| BatchMint.MintReport | V2/scripts/mint/batchMint.js:61-158 | the report is the summary of the chosen recipients |
| BatchMint.BatchMintRun | V2/scripts/mint/batchMint.js:16-158 | `batchMint` resolves to the report its checks, batches and mints determine |
| BatchMint.BatchReportAsWritten | V2/scripts/mint/batchMint.js:54-59 | the script as written never resolves to a report: once the checks pass it throws "mintPrice.mul is not a function" under ethers v6, or "hre.ethers.formatEther is not a function" under ethers v5 |
| BatchMint.AsWrittenNeverMints | V2/scripts/mint/batchMint.js:54-59 | the script as written throws the TypeError exactly where the intended script produces a report, and fails with the same message where the intended script refuses its input |
| BatchMint.AsWrittenOneRecipient | V2/scripts/mint/batchMint.js:54-59 | one valid recipient: the intended script reports one attempt, the script as written throws |
| BatchMint.RefusedInputs | V2/scripts/mint/batchMint.js:18-46 | a missing template id or non-array recipients fail with their message; any invalid recipient without `skipInvalid` fails; an empty list fails with "No valid recipients to process" |
| BatchMint.ChosenRecipients | V2/scripts/mint/batchMint.js:30-46 | with `skipInvalid` the minted recipients are the valid ones in order, without it all of them; the list is never empty and every recipient in it is valid |
| BatchMint.ReportFigures | V2/scripts/mint/batchMint.js:136-155 | one attempt and one result per recipient, successes plus failures equal the attempts, `ceil(n / size)` batches, and the cost is the price times the number of recipients, formatted in ether |
| BatchMint.ResultsInOrder | V2/scripts/mint/batchMint.js:74-127 | result `k` belongs to recipient `k`, which is item `k % size` of batch `k / size`, and is that recipient's mint outcome |
| BatchMint.ChunkLocation | V2/scripts/mint/batchMint.js:65-66 | recipient `k` is item `k % size` of batch `k / size` (also line 81) |
| BatchMint.NftName | V2/scripts/mint/batchMint.js:81-84 | the NFT is named after the caller's name, or "WaveX NFT", with `#` and its position counted from one |
| BatchMint.BatchAttributes | V2/scripts/mint/batchMint.js:85-95 | the caller's attributes come first, then "Batch" with `chunk + 1` of the batch count, then "Batch Index" with `index + 1` |
| EventDetails.TypeLabelNamesCode | V2/scripts/events/getEventDetails.js:33 | the label is always text; a code of the table is named by the key that maps back to it, and exactly the other codes are UNKNOWN |
| EventDetails.GetEventDetails | V2/scripts/events/getEventDetails.js:10-58 | a formatted event exists only for an event the contract returned, and carries the id it was asked for, the event's name and active flag, and its price in wei formatted in ether |
| EventDetails.MissingIdRejected | V2/scripts/events/getEventDetails.js:12-14 | a falsy id, 0 included, fails with "Event ID is required" before the contract is read; a truthy id of an existing event is formatted (also lines 22-48) |
| EventDetails.NotFoundIsNull | V2/scripts/events/getEventDetails.js:50-57 | a read failing with "Event not found" gives null; any other failure propagates unchanged |
| EventDetails.DetailsNumbers | V2/scripts/events/getEventDetails.js:29-40 | capacity, sold count and type are the decimal numerals of the contract's numbers; the remaining capacity is the numeral of capacity minus sold count, negative when oversold |
| EventDetails.DetailsStatus | V2/scripts/events/getEventDetails.js:43-45 | INACTIVE exactly for an inactive event; AVAILABLE exactly when active with sold count below capacity; SOLD_OUT exactly when active and full or oversold |
| EventDetails.DetailsTypeLabel | V2/scripts/events/getEventDetails.js:33 | the label of a known type maps back to its code in EVENT_TYPES; it is "UNKNOWN" exactly for codes 3 and above |
| EventDetails.StatusOf | V2/scripts/events/getEventDetails.js:43-45 | the status is INACTIVE, AVAILABLE or SOLD_OUT exactly as the event is inactive, has places left, or has none |
| ListEvents.Tracking.constructor | V2/scripts/events/listEvents.js:31-37 | the tracking record holds the ids and time it is given: the file's content, or none and null |
| ListEvents.FetchAll | V2/scripts/events/listEvents.js:41-42 | when all succeed there is one entry per tracked id, each the details of that id |
| ListEvents.FetchAllPrefixErr | V2/scripts/events/listEvents.js:41-42 | the first failure, in list order, is the failure of them all |
| ListEvents.FetchAllFails | V2/scripts/events/listEvents.js:41-42 | fetching fails exactly when the details of some tracked id fail |
| ListEvents.PresentExact | V2/scripts/events/listEvents.js:45 | exactly the non-null details are kept |
| ListEvents.SelectExact | V2/scripts/events/listEvents.js:47-61 | each filter keeps exactly the events that pass it |
| ListEvents.FilteredExact | V2/scripts/events/listEvents.js:45-61 | the filtered events are exactly the present ones that are active when `activeOnly`, active with seats left when `availableOnly`, and of the type when a number is given |
| ListEvents.Insert | V2/scripts/events/listEvents.js:64 | insertion adds the one event to the multiset and puts either it or the old first in front |
| ListEvents.SortBy | V2/scripts/events/listEvents.js:64 | sorting is a permutation |
| ListEvents.InsertDescending | V2/scripts/events/listEvents.js:64 | inserting into a list descending by key keeps it descending |
| ListEvents.SortDescending | V2/scripts/events/listEvents.js:64 | with numeric keys the sorted events run from the highest id down |
| ListEvents.PageSize | V2/scripts/events/listEvents.js:68 | the page size is never 0 (`options.pageSize \|\| 10`) |
| ListEvents.SliceBound | V2/scripts/events/listEvents.js:70 | a slice bound, negative ones counted from the end, lies within the list |
| ListEvents.Slice | V2/scripts/events/listEvents.js:70 | a slice holds only events of the list |
| ListEvents.PageStart | V2/scripts/events/listEvents.js:69 | a positive page and size start the page at a non-negative position |
| ListEvents.ListingOf | V2/scripts/events/listEvents.js:18-103 | a listing exists only when fetching every tracked id succeeded |
| ListEvents.OrderedExact | V2/scripts/events/listEvents.js:41-64 | an event is in the order exactly when some tracked id returned it and the options want it |
| ListEvents.ListedTracked | V2/scripts/events/listEvents.js:41-70 | every listed event is wanted by the options and carries a tracked id |
| ListEvents.ListingOrder | V2/scripts/events/listEvents.js:64 | with numeric ids the order runs from the highest id down, and the total counts every wanted event (also line 76) |
| ListEvents.PageWindow | V2/scripts/events/listEvents.js:67-70 | an absent page is 1, an absent size 10; with positive page and size the page holds at most `size` events, those from `(page - 1) * size` on, in order |
| ListEvents.PagesCover | V2/scripts/events/listEvents.js:67-79 | with a positive size, a page holds events exactly when its number is at most `totalPages` |
| ListEvents.Add | V2/scripts/events/listEvents.js:90 | adding keeps every member and holds the new one |
| ListEvents.UniqueExact | V2/scripts/events/listEvents.js:89 | the set holds the ids and nothing else, each once |
| ListEvents.FetchDetails | V2/scripts/events/listEvents.js:41-42 | fetching one tracked id after another gives what `Promise.all` gives |
| ListEvents.Track | V2/scripts/events/listEvents.js:89-92 | after the listed ids, all tracked already, are added, the record holds each tracked id once, stamped with the time |
| ListEvents.ListEvents | V2/scripts/events/listEvents.js:18-103 | the result is the listing of the tracked ids; on success the record keeps each tracked id once and is stamped, on failure it is unchanged |
| ListEvents.SortById | V2/scripts/events/listEvents.js:64 | sorting by id keeps exactly the same events |
| EventConfig.TypeKeysNameCodes | V2/scripts/config/eventConfig.js:17-21 | the key at position `n` of `Object.keys(EVENT_TYPES)` names the type whose code is `n` |
| EventConfig.OverriddenKeys | V2/scripts/config/eventConfig.js:29-38 | overriding the four properties keeps exactly the property names of `EVENT_METADATA` |
| EventConfig.OverriddenValues | V2/scripts/config/eventConfig.js:29-38 | each overridden property holds its new value |
| EventConfig.GetEventMetadata | V2/scripts/config/eventConfig.js:28-41 | every result is an object with a truthy name |
| EventConfig.GetEventMetadataOk | V2/scripts/config/eventConfig.js:28-41 | it fails exactly on null options and on caller attributes that cannot be spread |
| EventConfig.GetEventMetadataKeys | V2/scripts/config/eventConfig.js:29-38 | the result has exactly the properties of `EVENT_METADATA` |
| EventConfig.GetEventMetadataName | V2/scripts/config/eventConfig.js:31 | the name is the caller's when truthy, otherwise "Wavex Event #" and the event id |
| EventConfig.GetEventMetadataFallbacks | V2/scripts/config/eventConfig.js:32-33 | description and image are the caller's when truthy, otherwise those of `EVENT_METADATA` |
| EventConfig.BaseAttributeTypes | V2/scripts/config/eventConfig.js:5-14 | the configuration's own attributes are Type and Capacity |
| EventConfig.GetEventMetadataAttributes | V2/scripts/config/eventConfig.js:34-37 | the attributes are the two base ones followed by every caller attribute, duplicates included |
| ConfigValidator.FirstBad | V2/scripts/utils/configValidator.js:10-14 | a reported field is one of the checked fields and fails the test (also lines 34-38, 55-75) |
| ConfigValidator.FirstBadNone | V2/scripts/utils/configValidator.js:10-14 | no field is reported exactly when every checked field passes (also lines 34-38, 55-75) |
| ConfigValidator.FirstBadIsFirst | V2/scripts/utils/configValidator.js:10-14 | the reported field is the first failing one: every field before it passes (also lines 34-38, 55-75) |
| ConfigValidator.AttributeCheckOk | V2/scripts/utils/configValidator.js:21-25 | the attribute loop passes exactly when every attribute is an object with a truthy trait type and value |
| ConfigValidator.ValidateMetadata | V2/scripts/utils/configValidator.js:3-46 | every success is `true` |
| ConfigValidator.PropertiesCheckOk | V2/scripts/utils/configValidator.js:29-42 | the properties pass exactly when they are an object (arrays included) defining the six required properties, with an array of benefits |
| ConfigValidator.ValidateMetadataOk | V2/scripts/utils/configValidator.js:3-46 | metadata passes exactly when it is an object with non-empty string name, description and image, an array of complete attributes, and properties that are falsy or good |
| ConfigValidator.ValidateTemplateConfig | V2/scripts/utils/configValidator.js:48-103 | every success is `true` |
| ConfigValidator.DesignAndBenefitsOk | V2/scripts/utils/configValidator.js:82-100 | a truthy design must have six non-empty string fields; truthy benefits must be an array of strings; exactly these pass |
| ConfigValidator.DefinedFieldsOk | V2/scripts/utils/configValidator.js:54-59 | no field is missing exactly when id, name, base balance, price, discount and isVIP are all defined |
| ConfigValidator.TypedFieldsOk | V2/scripts/utils/configValidator.js:54-80 | the four field loops pass exactly when id and discount are numbers, name, base balance and price strings, and isVIP a boolean |
| ConfigValidator.ValidateTemplateConfigOk | V2/scripts/utils/configValidator.js:48-103 | a template configuration passes exactly when it is an object with the six typed fields and a good design and benefits list when present |
| ConfigValidator.DesignAndBenefitsReads | V2/scripts/utils/configValidator.js:82-100 | the optional checks read only the design and the benefits |
| ConfigValidator.DiscountRangeUnchecked | V2/scripts/utils/configValidator.js:62-67 | only the discount's type is checked: a configuration that passes still passes with any whole-number discount, 250 included |
| ConfigValidator.ValidateEventConfig | V2/scripts/utils/configValidator.js:105-130 | every success is `true` |
| ConfigValidator.ValidateEventConfigOk | V2/scripts/utils/configValidator.js:105-130 | an event configuration passes exactly when it is an object with a string name, a defined price, a number capacity that is not a number at or below zero, and a number type |
| ConfigValidator.NaNCapacityPasses | V2/scripts/utils/configValidator.js:121-123 | an object with a string name, a price, a NaN capacity and a number type passes |
| ConfigValidator.ValidateEventConfigStrict | V2/scripts/utils/configValidator.js:105-130 | the check with `!(capacity > 0)`: every success is `true` |
| ConfigValidator.StrictCapacityPositive | V2/scripts/utils/configValidator.js:121-123 | the corrected check accepts only positive capacities and differs from the original only on a NaN capacity |
| EventMetadata.Generate | V2/scripts/events/eventMetadata.js:41-75 | every generated metadata passes `validateEventMetadata` |
| EventMetadata.GenerateResult | V2/scripts/events/eventMetadata.js:41-75 | a success is the object built from inputs that nothing along the way fails on |
| EventMetadata.GenerateChecked | V2/scripts/events/eventMetadata.js:72-74 | usable inputs give the built object when it passes the check, and the check's error otherwise |
| EventMetadata.EventTraitsCarried | V2/scripts/events/eventMetadata.js:24-32 | the generated attributes carry Type, Capacity and Price whatever the caller adds (also lines 46-64) |
| EventMetadata.EventAttributesPresent | V2/scripts/events/eventMetadata.js:46-62 | the four generated attributes are objects |
| EventMetadata.MetadataValid | V2/scripts/events/eventMetadata.js:12-33 | the built object passes the check exactly when the event's name is truthy and no caller attribute is undefined or null (also lines 42-70) |
| EventMetadata.GenerateOk | V2/scripts/events/eventMetadata.js:41-75 | generation succeeds exactly when the event has a capacity, a price and a truthy name, the options are not null, and the caller's attributes can be spread and hold no undefined or null entry |
| EventMetadata.GeneratedAttributes | V2/scripts/events/eventMetadata.js:46-64 | the attributes are the event's four, then the caller's |
| EventMetadata.EventAttributeTypes | V2/scripts/events/eventMetadata.js:47-62 | the event's attributes are Type, Capacity, Price and Status, in that order |
| EventMetadata.EventAttributeValues | V2/scripts/events/eventMetadata.js:53-61 | Capacity and Price are the event's values as strings; Status is "Active" exactly when the event is active, "Inactive" exactly when it is not |
| EventMetadata.TypeLabelOfCode | V2/scripts/events/eventMetadata.js:49 | a code of the table is named by the key that maps back to it; any other number and a missing type give "STANDARD" |
| EventMetadata.EmptyNameFails | V2/scripts/events/eventMetadata.js:13-18 | an empty event name fails with "Missing required metadata fields: name" |
| EventMetadata.ConfigMetadataNeedsPrice | V2/scripts/events/eventMetadata.js:24-32 | `getEventMetadata`'s result fails this check unless the caller adds a Price attribute |
| AssetMetadata.CarriesConcat | V2/scripts/templates/templateMetadata.js:25-28 | a list carries a trait type exactly when one of its two parts does |
| AssetMetadata.TraitTypesExact | V2/scripts/templates/templateMetadata.js:25 | mapping to trait types succeeds exactly when no entry is undefined or null, and then gives exactly the entries' trait types |
| AssetMetadata.MissingTraitsExact | V2/scripts/templates/templateMetadata.js:26-28 | no required trait type is missing exactly when each is among the types |
| AssetMetadata.DescriptivePresent | V2/scripts/templates/templateMetadata.js:13-14 | no descriptive field is missing exactly when name, description and image are all truthy |
| AssetMetadata.TraitsPresent | V2/scripts/templates/templateMetadata.js:24-32 | the trait-type part of the check passes exactly when no entry is undefined or null and every required type is carried |
| AssetMetadata.ValidateOk | V2/scripts/templates/templateMetadata.js:12-33 | the check passes exactly on truthy name, description and image, an array of attributes none undefined or null, and every required trait type among them; values are not looked at |
| AssetMetadata.FieldsBeforeAttributes | V2/scripts/templates/templateMetadata.js:13-18 | missing descriptive fields are all reported, in order, whatever the attributes |
| AssetMetadata.OnlyNameMissing | V2/scripts/templates/templateMetadata.js:13-18 | a falsy name alone is reported on its own |
| AssetMetadata.AssembledFields | V2/scripts/templates/templateMetadata.js:42-70 | the generated object holds the subject's name, the caller's description and image or the defaults, the attributes, and the id, creation time and caller properties |
| AssetMetadata.AssembledValid | V2/scripts/templates/templateMetadata.js:41-75 | with non-empty defaults the generated object passes the check exactly when the subject's name is truthy, no attribute is undefined or null, and every required trait type is carried |
| AssetMetadata.Update | V2/scripts/templates/templateMetadata.js:113-155 | every successful update passes the save's check |
| AssetMetadata.Unreplaced | V2/scripts/templates/templateMetadata.js:135-139 | every kept stored attribute is one no update attribute overrides |
| AssetMetadata.SomeSameTraitExact | V2/scripts/templates/templateMetadata.js:136-138 | `some` answers whether an update attribute has the same trait type |
| AssetMetadata.KeptIsUnreplaced | V2/scripts/templates/templateMetadata.js:135-139 | over entries that are not undefined or null the filter keeps exactly the stored attributes no update overrides, in order |
| AssetMetadata.UnreplacedKeeps | V2/scripts/templates/templateMetadata.js:135-139 | every stored attribute that no update overrides survives |
| AssetMetadata.KeptWithoutUpdates | V2/scripts/templates/templateMetadata.js:136 | with no update attributes every stored attribute is kept |
| AssetMetadata.MergedIsUnreplacedThenNew | V2/scripts/templates/templateMetadata.js:134-141 | the merged list is the unreplaced stored attributes followed by all the update's, so a replaced attribute moves to the end |
| AssetMetadata.MergedWithoutUpdates | V2/scripts/templates/templateMetadata.js:134-141 | an update without attributes keeps the stored list |
| AssetMetadata.UpdateShape | V2/scripts/templates/templateMetadata.js:131-150 | a successful update is the merged object built from the merged attributes |
| AssetMetadata.UpdateNeedsStored | V2/scripts/templates/templateMetadata.js:135 | undefined or null stored metadata fails on reading its attributes |
| AssetMetadata.UpdatedFieldsValues | V2/scripts/templates/templateMetadata.js:134-146 | the merged object's attributes are the merged list and its properties the stored ones overridden by the update's, stamped with the time |
| AssetMetadata.UpdateOtherFields | V2/scripts/templates/templateMetadata.js:131-133 | every other key takes the update's value when the update has it, the stored value otherwise |
| AssetMetadata.MergedEndsWithNew | V2/scripts/templates/templateMetadata.js:140 | every update attribute is in the merged list |
| AssetMetadata.UpdatedNewPresent | V2/scripts/templates/templateMetadata.js:86 | a successful update has no undefined or null update attribute (also line 150) |
| AssetMetadata.UpdateAttributes | V2/scripts/templates/templateMetadata.js:134-141 | the updated attributes are the stored ones no update overrides, then every attribute of the update |
| AssetMetadata.UpdateProperties | V2/scripts/templates/templateMetadata.js:142-146 | the merged properties carry the update time, and each update property wins over the stored one |
| TemplateMetadata.Generate | V2/scripts/templates/templateMetadata.js:41-75 | every generated metadata passes `validateTemplateMetadata` |
| TemplateMetadata.GenerateResult | V2/scripts/templates/templateMetadata.js:41-75 | a success is the object built from inputs that nothing along the way fails on |
| TemplateMetadata.GenerateChecked | V2/scripts/templates/templateMetadata.js:72-74 | usable inputs give the built object when it passes the check, and the check's error otherwise |
| TemplateMetadata.TemplateTraitsCarried | V2/scripts/templates/templateMetadata.js:24-32 | the generated attributes carry Type, Base Balance and Price whatever the caller adds (also lines 46-64) |
| TemplateMetadata.TemplateAttributesPresent | V2/scripts/templates/templateMetadata.js:46-62 | the four generated attributes are objects |
| TemplateMetadata.MetadataValid | V2/scripts/templates/templateMetadata.js:12-33 | the built object passes the check exactly when the template's name is truthy and no caller attribute is undefined or null (also lines 42-70) |
| TemplateMetadata.GenerateOk | V2/scripts/templates/templateMetadata.js:41-75 | generation succeeds exactly when the template has a balance, a price and a truthy name, the options are not null, and the caller's attributes can be spread and hold no undefined or null entry |
| TemplateMetadata.GeneratedAttributes | V2/scripts/templates/templateMetadata.js:46-64 | the attributes are the template's four, then the caller's |
| TemplateMetadata.TemplateAttributeTypes | V2/scripts/templates/templateMetadata.js:47-62 | the template's attributes are Type, Base Balance, Price and Discount, in that order |
| TemplateMetadata.TemplateTypeLabel | V2/scripts/templates/templateMetadata.js:49 | Type reads "VIP" exactly for a VIP template and "Standard" exactly for any other |
| TemplateMetadata.TemplateAttributeValues | V2/scripts/templates/templateMetadata.js:53-61 | the balance and price as strings, the discount followed by a percent sign |
| TemplateMetadata.GeneratedDescriptive | V2/scripts/templates/templateMetadata.js:43-45 | the template's name; the caller's description or "<name> - A WaveX Template"; the caller's image or the default |
| TemplateMetadata.EmptyNameFails | V2/scripts/templates/templateMetadata.js:13-18 | an empty template name fails with "Missing required metadata fields: name" |
| GenerateMetadata.Attr | V2/scripts/metadata/generateMetadata.js:64-75 | an attribute object carries the trait type and the value it is built with |
| GenerateMetadata.BaseMetadata | V2/scripts/metadata/generateMetadata.js:18-28 | the base object has name, description, image, attributes and properties, in that order; each descriptive field is the caller's truthy value or its default ("WaveX Asset", "A WaveX digital asset", "ipfs://QmDefaultImageHash"); attributes start empty; the properties hold the kind as `type` and the clock's ISO time as `createdAt` unless `options.properties` overrides them |
| GenerateMetadata.Generate | V2/scripts/metadata/generateMetadata.js:15-53 | everything returned passes `validateMetadata` |
| GenerateMetadata.MissingFieldsExact | V2/scripts/metadata/generateMetadata.js:178-179 | the missing fields are exactly the listed fields whose value is falsy |
| GenerateMetadata.CheckAttributeListOk | V2/scripts/metadata/generateMetadata.js:189-193 | the loop passes exactly when every attribute from the start index on is an object with a truthy trait type and value |
| GenerateMetadata.FirstBadAttributeReported | V2/scripts/metadata/generateMetadata.js:189-193 | the error names the index of the first incomplete attribute |
| GenerateMetadata.UnsupportedTypeThrows | V2/scripts/metadata/generateMetadata.js:30-42 | a type other than NFT, TEMPLATE or EVENT in any letter case fails with "Unsupported metadata type" and the type |
| GenerateMetadata.RequiredPresent | V2/scripts/metadata/generateMetadata.js:178-183 | no required field is missing exactly when name, description, image and attributes are all truthy |
| GenerateMetadata.CheckMetadataOk | V2/scripts/metadata/generateMetadata.js:177-194 | the check passes exactly on truthy name, description and image and an array of complete attributes |
| GenerateMetadata.GeneratedIsWellFormed | V2/scripts/metadata/generateMetadata.js:44-47 | whatever is returned has truthy descriptive fields and only complete attributes |
| GenerateMetadata.GenerateIsKind | V2/scripts/metadata/generateMetadata.js:30-39 | on success the data is an object and the result is the generator of the kind named, in any letter case |
| GenerateMetadata.OverrideAttributes | V2/scripts/metadata/generateMetadata.js:60-63 | the generated object holds the overriding name and exactly the attributes given (also lines 94-97, 135-138) |
| GenerateMetadata.GeneratedAttributes | V2/scripts/metadata/generateMetadata.js:63-77 | the attributes are the kind's own list followed by the caller's, spread (also lines 97-119, 138-160) |
| GenerateMetadata.TemplateAttributeOrder | V2/scripts/metadata/generateMetadata.js:97-119 | TEMPLATE attributes: Template ID, Base Balance, Price, Discount as "<discount or 0>%", VIP "Yes"/"No", then the caller's |
| GenerateMetadata.UndefinedValueFails | V2/scripts/metadata/generateMetadata.js:189-193 | an attribute whose value is undefined fails the check |
| GenerateMetadata.TemplateFirstValues | V2/scripts/metadata/generateMetadata.js:98-109 | the first three TEMPLATE values are the data's id, balance and price as strings, undefined when missing |
| GenerateMetadata.TemplateNeedsIdBalancePrice | V2/scripts/metadata/generateMetadata.js:98-109 | a TEMPLATE without template id, base balance or price cannot be generated (also lines 189-193) |
| GenerateMetadata.EventAttributeOrder | V2/scripts/metadata/generateMetadata.js:138-160 | EVENT attributes: Event ID, Capacity, Price, Type (default "Standard"), Status "Active" exactly when `active` is truthy, then the caller's |
| GenerateMetadata.EventFirstValues | V2/scripts/metadata/generateMetadata.js:139-150 | the first three EVENT values are the data's id, capacity and price as strings, undefined when missing |
| GenerateMetadata.EventNeedsIdCapacityPrice | V2/scripts/metadata/generateMetadata.js:139-150 | an EVENT without event id, capacity or price cannot be generated (also lines 189-193) |
| GenerateMetadata.OverrideProperties | V2/scripts/metadata/generateMetadata.js:78-83 | the properties are the base's, then the kind's own (also lines 120-124, 161-166) |
| GenerateMetadata.EventSoldCountDefault | V2/scripts/metadata/generateMetadata.js:165 | an event's `soldCount` property is the data's, or 0 when falsy |
| GenerateMetadata.NftDefaults | V2/scripts/metadata/generateMetadata.js:64-75 | NFT attributes fall back to Token ID "0", Template "Custom" and Balance "0" |
| GenerateMetadata.PrefixValueFails | V2/scripts/metadata/generateMetadata.js:189-193 | metadata whose attributes begin with an entry whose value is undefined fails the check |
| GenerateMetadata.TemplateMissingValueFails | V2/scripts/metadata/generateMetadata.js:98-109 | metadata starting with the TEMPLATE attributes of data lacking an id, balance or price fails the check (also lines 189-193) |
| GenerateMetadata.EventMissingValueFails | V2/scripts/metadata/generateMetadata.js:139-150 | metadata starting with the EVENT attributes of data lacking an id, capacity or price fails the check (also lines 189-193) |
| UpdateMetadata.FindFrom | V2/scripts/metadata/updateMetadata.js:100-102 | a position found holds the update's trait type under `===`; otherwise -1 |
| UpdateMetadata.MergeOne | V2/scripts/metadata/updateMetadata.js:99-109 | one update either replaces an attribute in place or is pushed at the end |
| UpdateMetadata.MergeAttributes | V2/scripts/metadata/updateMetadata.js:96-112 | the merge of two arrays is the loop over the updates; a non-array update list throws |
| UpdateMetadata.Merge | V2/scripts/metadata/updateMetadata.js:96-112 | the in-place loop on the local copy computes the merge |
| UpdateMetadata.IndexOfTrait | V2/scripts/metadata/updateMetadata.js:100-102 | the first position holding a trait type, with no earlier holder, or -1 |
| UpdateMetadata.LastWith | V2/scripts/metadata/updateMetadata.js:99-109 | the update found carries the trait type asked for |
| UpdateMetadata.LastWithFound | V2/scripts/metadata/updateMetadata.js:99-109 | an update of a trait type is found exactly when one exists |
| UpdateMetadata.LastWithIsLast | V2/scripts/metadata/updateMetadata.js:99-109 | the update found is one that no later update of the same trait type follows |
| UpdateMetadata.NewTraitsExact | V2/scripts/metadata/updateMetadata.js:104-108 | the appended trait types are each listed once, and are exactly those the updates carry and the existing list lacks |
| UpdateMetadata.MergedTraits | V2/scripts/metadata/updateMetadata.js:96-112 | every position of the merge keeps the trait type of the existing attribute there, then the new trait types in order |
| UpdateMetadata.FindPlain | V2/scripts/metadata/updateMetadata.js:100-102 | with no null entries and a value-comparable trait type, `findIndex` never throws and finds the first holder |
| UpdateMetadata.MergeIsMerged | V2/scripts/metadata/updateMetadata.js:99-109 | the loop equals the closed form: the existing attributes with the last update of each of their trait types in place, then the last update of each new trait type |
| UpdateMetadata.MergeLength | V2/scripts/metadata/updateMetadata.js:99-109 | the merged length is the existing length plus the number of distinct trait types the updates add |
| UpdateMetadata.MergeKeepsExisting | V2/scripts/metadata/updateMetadata.js:96-112 | every existing attribute keeps its position and trait type; one that no update names keeps its value |
| UpdateMetadata.LastUpdateWins | V2/scripts/metadata/updateMetadata.js:99-109 | for every trait type the updates carry, the first attribute of it in the merge is the last such update |
| UpdateMetadata.MergeAllAppend | V2/scripts/metadata/updateMetadata.js:99-109 | merging two update lists in turn is merging their concatenation |
| UpdateMetadata.MergeIdempotent | V2/scripts/metadata/updateMetadata.js:96-112 | merging the same updates again changes nothing |
| UpdateMetadata.Existing | V2/scripts/metadata/updateMetadata.js:65-90 | a type other than NFT, TEMPLATE or EVENT, in any case, is refused; otherwise the stored metadata, or null, is returned |
| UpdateMetadata.Update | V2/scripts/metadata/updateMetadata.js:15-42 | an accepted update is an object |
| UpdateMetadata.UpdateShape | V2/scripts/metadata/updateMetadata.js:24-42 | an accepted update is the object literal over the merged attributes and passes `validateMetadata` |
| UpdateMetadata.UpdatedFieldsValues | V2/scripts/metadata/updateMetadata.js:24-39 | name, description and image fall back to the stored ones; attributes are the merge; properties are the spread of both plus `updatedAt` |
| UpdateMetadata.UpdatedFieldsOther | V2/scripts/metadata/updateMetadata.js:25-26 | every other key comes from the stored object spread under the update |
| UpdateMetadata.UpdateAccepts | V2/scripts/metadata/updateMetadata.js:18-42 | stored metadata whose merge passes the check is updated |
| UpdateMetadata.UpdateNeedsExisting | V2/scripts/metadata/updateMetadata.js:18-21 | without stored metadata and without `createIfMissing` the update throws "No existing metadata found for" the type and id |
| UpdateMetadata.UpdatedIsWellFormed | V2/scripts/metadata/updateMetadata.js:41-42 | an updated object has a truthy name, description and image and only complete attributes |
| UpdateMetadata.UpdateDescriptive | V2/scripts/metadata/updateMetadata.js:27-29 | a truthy name, description or image of the update wins; a falsy one keeps the stored value |
| UpdateMetadata.UpdateOtherFields | V2/scripts/metadata/updateMetadata.js:24-26 | any other key of the update replaces the stored one; keys it does not name are kept |
| UpdateMetadata.UpdateProperties | V2/scripts/metadata/updateMetadata.js:34-38 | the properties carry the update time and the update's properties win over the stored ones |
| UpdateMetadata.UpdateAttributes | V2/scripts/metadata/updateMetadata.js:30-33 | with plain attribute lists the updated attributes are the closed-form merge |
| RepairMetadata.PrependStep | V2/scripts/metadata/updateMetadata.js:193-216 | pushing two batches of repairs in turn is pushing them together |
| RepairMetadata.CheckRequired | V2/scripts/metadata/updateMetadata.js:192-202 | the loop pushes one 'add' repair per falsy required field, in order, and the flag is cleared exactly when a repair exists |
| RepairMetadata.CheckAttributes | V2/scripts/metadata/updateMetadata.js:205-216 | the loop pushes one 'fix' repair per incomplete attribute, throws on a null one, and the flag tracks the repairs |
| RepairMetadata.CollectAdds | V2/scripts/metadata/updateMetadata.js:220-226 | the `repairs` object assigns each 'add' repair's value under its field |
| RepairMetadata.ValidateAndRepair | V2/scripts/metadata/updateMetadata.js:178-240 | the script's steps compute the specified report |
| RepairMetadata.ReviewStored | V2/scripts/metadata/updateMetadata.js:185-234 | the passes over stored metadata compute the specified report |
| RepairMetadata.FindRepairs | V2/scripts/metadata/updateMetadata.js:191-216 | both passes push the required-field repairs, then the attribute ones, and `valid` holds exactly when there are none |
| RepairMetadata.AutoRepair | V2/scripts/metadata/updateMetadata.js:218-232 | the update is sent only when the result is invalid, `autoRepair` is set and an 'add' repair exists |
| RepairMetadata.RequiredMatchesMissing | V2/scripts/metadata/updateMetadata.js:192-202 | the 'add' repairs are exactly the fields the generator's check finds missing, in order, with "Default <field>" or `[]` for attributes |
| RepairMetadata.AttributeRepairsThrow | V2/scripts/metadata/updateMetadata.js:206-207 | the attribute pass throws exactly when some entry is undefined or null |
| RepairMetadata.AttributeRepairsAgree | V2/scripts/metadata/updateMetadata.js:205-216 | the attribute pass finds nothing exactly when the generator's attribute check passes |
| RepairMetadata.AttributeFixesExact | V2/scripts/metadata/updateMetadata.js:205-216 | every incomplete attribute gets its 'fix' repair, and every 'fix' names an incomplete attribute |
| RepairMetadata.CheckedNeedsNoRepair | V2/scripts/metadata/updateMetadata.js:185-234 | metadata the generator's check accepts is reported valid with no repairs |
| RepairMetadata.NoRepairIsChecked | V2/scripts/metadata/updateMetadata.js:185-234 | with an attribute array, metadata reported valid passes the generator's check |
| RepairMetadata.NonArrayAttributesPass | V2/scripts/metadata/updateMetadata.js:205 | truthy attributes that are not an array are reported valid although the generator's check refuses them |
| RepairMetadata.AddedFieldsOfAdds | V2/scripts/metadata/updateMetadata.js:220-228 | the `repairs` object holds every missing field's default and nothing else, and is not empty when a field is missing |
| RepairMetadata.RepairFieldValue | V2/scripts/metadata/updateMetadata.js:194-199 | the `repairs` object holds the default of each falsy required field only, so the merge makes every required field truthy (also lines 220-226) |
| RepairMetadata.RepairMerge | V2/scripts/metadata/updateMetadata.js:30-33 | the repair's attribute merge keeps the stored attributes or starts from `[]` (also line 199) |
| RepairMetadata.MergedPassesCheck | V2/scripts/metadata/updateMetadata.js:24-42 | a merge with truthy descriptive fields and complete attributes passes the check |
| RepairMetadata.RepairedPasses | V2/scripts/metadata/updateMetadata.js:228-230 | the metadata the repair builds passes the generator's check when the stored attributes are complete or missing |
| RepairMetadata.RepairUpdateAccepted | V2/scripts/metadata/updateMetadata.js:228-230 | the repair's update is accepted by the updater and yields that metadata |
| RepairMetadata.RepairedField | V2/scripts/metadata/updateMetadata.js:27-29 | a missing name, description or image becomes "Default <field>"; a present one is kept (also line 199) |
| RepairMetadata.CompleteAttributesNoFix | V2/scripts/metadata/updateMetadata.js:205-216 | complete or absent attributes give no 'fix' repair |
| RepairMetadata.AutoRepairRestores | V2/scripts/metadata/updateMetadata.js:178-234 | with `autoRepair`, metadata missing required fields is reported invalid with one 'add' per missing field and repaired into metadata that passes the check |
| ValidateMetadata.SchemaFor | V2/scripts/metadata/validateMetadata.js:6-22 | a schema exists exactly for NFT, TEMPLATE and EVENT, and each requires name, description, image and attributes |
| ValidateMetadata.FieldErrorsExact | V2/scripts/metadata/validateMetadata.js:43-48 | exactly the falsy required fields are reported, at most one error each |
| ValidateMetadata.TraitTypesOk | V2/scripts/metadata/validateMetadata.js:52 | `map` succeeds exactly when no attribute is undefined or null, and then yields each trait type |
| ValidateMetadata.TraitTypesThrowsAtFirst | V2/scripts/metadata/validateMetadata.js:52 | the error thrown is that of the first undefined or null attribute |
| ValidateMetadata.MissingAttributesExact | V2/scripts/metadata/validateMetadata.js:55-60 | exactly the schema trait types absent from the attributes are reported |
| ValidateMetadata.InvalidAttributesExact | V2/scripts/metadata/validateMetadata.js:63-70 | exactly the indices of attributes with a falsy trait type or value are reported |
| ValidateMetadata.AttributeErrors | V2/scripts/metadata/validateMetadata.js:51-74 | a non-array is reported as "Attributes must be an array" |
| ValidateMetadata.MissingProperties | V2/scripts/metadata/validateMetadata.js:78-82 | `in` throws exactly on a primitive with a property to look up; on an object the warnings are those of the properties it lacks |
| ValidateMetadata.PropertyWarningsExact | V2/scripts/metadata/validateMetadata.js:78-82 | exactly the recommended properties the object does not own are warned about |
| ValidateMetadata.PropertyWarnings | V2/scripts/metadata/validateMetadata.js:77-85 | falsy properties give the single warning "Missing properties object" |
| ValidateMetadata.FindTrait | V2/scripts/metadata/validateMetadata.js:109-111 | `find` returns an attribute of the trait type asked for, or undefined when none has it |
| ValidateMetadata.TypeErrors | V2/scripts/metadata/validateMetadata.js:88-98 | with non-array attributes the type-specific `find` throws (also line 109) |
| ValidateMetadata.ValidationResult.constructor | V2/scripts/metadata/validateMetadata.js:36-40 | a fresh result is valid with no errors and no warnings |
| ValidateMetadata.ValidationResult.AddError | V2/scripts/metadata/validateMetadata.js:45-46 | an error is pushed and the flag cleared; the warnings stay |
| ValidateMetadata.ValidationResult.AddWarning | V2/scripts/metadata/validateMetadata.js:80 | a warning is pushed; the flag and errors stay |
| ValidateMetadata.CheckNft | V2/scripts/metadata/validateMetadata.js:107-125 | Token ID and Balance values that are NaN are reported, in that order; the flag stays consistent |
| ValidateMetadata.CheckTemplate | V2/scripts/metadata/validateMetadata.js:131-152 | a NaN Price and a Discount outside 0..100 are reported; the flag stays consistent |
| ValidateMetadata.CheckEvent | V2/scripts/metadata/validateMetadata.js:158-175 | a NaN Capacity and a NaN sold count are reported; `in` on a primitive throws |
| ValidateMetadata.MissingPropertiesThrowsAtFirst | V2/scripts/metadata/validateMetadata.js:78-79 | `in` on a primitive throws for the first recommended property |
| ValidateMetadata.CheckRequired | V2/scripts/metadata/validateMetadata.js:43-48 | the loop pushes the required-field errors; reading a field of undefined or null throws |
| ValidateMetadata.MapTraitTypes | V2/scripts/metadata/validateMetadata.js:52 | the loop computes the trait types or the first read error |
| ValidateMetadata.ReportMissingAttributes | V2/scripts/metadata/validateMetadata.js:55-60 | the loop pushes the missing-attribute errors |
| ValidateMetadata.ReportInvalidAttributes | V2/scripts/metadata/validateMetadata.js:63-70 | the loop pushes one error per incomplete attribute, by index |
| ValidateMetadata.CheckAttributes | V2/scripts/metadata/validateMetadata.js:51-74 | the attribute checks push their errors, or throw what `map` throws |
| ValidateMetadata.CheckProperties | V2/scripts/metadata/validateMetadata.js:77-85 | the property check pushes warnings only, never an error, and leaves the flag |
| ValidateMetadata.Validate | V2/scripts/metadata/validateMetadata.js:30-101 | the result is valid exactly when no error was pushed; an unknown type throws "Unknown metadata type" |
| ValidateMetadata.NonArrayAttributesThrow | V2/scripts/metadata/validateMetadata.js:71-74 | the "Attributes must be an array" error never reaches the caller: the type-specific `find` throws first (also line 109) |
| ValidateMetadata.DiscountErrorIff | V2/scripts/metadata/validateMetadata.js:142-151 | the discount error is reported exactly when a Discount attribute exists and parseInt of its value is NaN or outside 0..100 |
| ValidateMetadata.MatchesAlnumIff | V2/scripts/metadata/validateMetadata.js:186 | `[a-zA-Z0-9]{n}$` matches exactly n ASCII letters or digits |
| ValidateMetadata.IpfsUriIff | V2/scripts/metadata/validateMetadata.js:182-188 | "ipfs://" followed by h is accepted exactly when h is 46 ASCII letters or digits |
| ValidateMetadata.IpfsUriLength | V2/scripts/metadata/validateMetadata.js:182-188 | an accepted URI reads as 53 characters |
| ValidateMetadata.CountsPartition | V2/scripts/metadata/validateMetadata.js:219-221 | the valid and invalid counts add up to the number of results |
| ValidateMetadata.EntryConsistent | V2/scripts/metadata/validateMetadata.js:201-216 | every entry, a caught exception's included, is valid exactly when it has no errors |
| ValidateMetadata.BatchTotals | V2/scripts/metadata/validateMetadata.js:196-224 | a non-array throws; otherwise one entry per input, in order, with its index, and the counts add up |

## Left out

What the code does that the model does not capture, one item per line.

**The program (lib.rs)**
- The SPL `mint_to` call is external. It is modelled as one unit added to the token account's amount. Failures of the call itself are not modelled: a wrong mint authority or a frozen token account makes the real instruction fail, while the model's `mint_nft` never fails at that step.
- The `DataV2` metadata and the balance signer seeds are built and never used, so they are not modelled.
- Rent, account allocation and the Borsh byte layout are not modelled; `LEN` is checked as arithmetic only.
- PDA derivation is a constructor of the address type. Distinct tags or seeds therefore give distinct addresses, and the SHA-256 search is not modelled.
- WavexProgram.u64: the counters are a bounded newtype. `template_count += 1` and `event_count += 1` past 2^64 - 1 are taken to abort the transaction (`ArithmeticOverflow`), as a build with overflow checks does; a build without them would wrap, which is not modelled.
- Anchor's account checks follow the order its generated code uses: non-init accounts are loaded in field order, then `init` accounts, then the remaining constraints, then the handler.

**Runtime and environment**
- Numbers are integers or NaN. Fractions, exponents and Infinity are read as NaN by `Js.Number`, and floating point is not modelled.
- ValidateMetadata.CheckNft, ValidateMetadata.CheckTemplate, ValidateMetadata.CheckEvent: a decimal numeral such as "0.5" is a number to `isNaN` in JS, but NaN in the model, so the model reports it where the script does not.
- BenefitTypes.NaNPassesValidation: for the same reason, a decimal numeral such as "0.5" is accepted by the model (`ValidateBenefitParams(2, "0.5", "0.5")` is true) where the script compares 0.5 with the bounds and refuses it. The lemma's precondition therefore covers some inputs the script refuses.
- `Js.ToLower` and `Js.ToUpper` map ASCII letters only.
- BenefitTypes.ConfigFor, Js.Get: lookups read own properties only; the prototype chain is not modelled. A benefit type that names an inherited property of `Object.prototype` ("toString", "constructor", "hasOwnProperty", "valueOf" and the like) is refused by the model with "Invalid benefit type", while the script finds a truthy function there, compares the value and duration with undefined bounds (always false) and returns true.
- TypeError messages are approximations of the engine's wording.
- `===` on two arrays or two objects is false: the values the scripts compare come from different places, so they are different references. Aliasing of mutable objects is not represented, because values are immutable.
- `Promise.all` runs its calls one after another, and the first failure in list order is the one reported. The timing of concurrent calls is not modelled.
- These come from outside and are parameters: the clock (`Date.now()`, `new Date().toISOString()`), environment variables, the stored metadata files, contract calls and their receipts, and the answer to the `readline` prompt.
- File and network I/O is not modelled: `saveMetadata`, `saveTemplateMetadata`, `saveEventMetadata`, IPFS and Pinata uploads, and the tracking-file reads and writes of `listEvents`. The object `updateMetadata` returns after saving, `{id, type, metadataURI, metadata, timestamp}`, is reduced to its `metadata` part: `UpdateMetadata.Update` and the `repaired` field of `RepairMetadata`'s report hold only the updated metadata.
- These whole functions are I/O and are not modelled: `getLocalTemplateMetadata`, `getDeployment` in `scripts/mint.js`, and the V1 `generateMetadata`/`main` of `scripts/metadata/generateMetadata.js`.
- `investigateRevert` in `scripts/admin/addBatchBenefits.js` only logs, so it is not modelled.
- `verifyBenefits` in `scripts/admin/verifyBenefits.js`: its `TOKEN_RANGE` parsing is modelled (`BenefitRange.VerifyTargets`, `BenefitRange.VerifyPassesNaN`). The contract queries and the logging of their answers are not.
- `batchUpdateMetadata` in `V2/scripts/metadata/updateMetadata.js` only runs `updateMetadata` per entry through `Promise.allSettled`, so it is not modelled.

**Scripts**
- ListEvents.SortBy: `Array.prototype.sort` is modelled as a stable insertion sort. It takes any keys: an event with a NaN key never goes before another one, because the comparator then gives NaN. With NaN keys the comparator is inconsistent and the engine's order is unspecified, so the model's order is one of the allowed ones, not the engine's. Only the ordering lemmas `ListEvents.SortDescending` and `ListEvents.ListingOrder` require numeric keys.
- BatchMint.TotalCost: the intended total cost is the exact product of the price in wei and the number of recipients. The script as written never computes it (see Findings and `BatchMint.BatchReportAsWritten`).
- BatchMint.Options: `batchSize` is a `nat`, with 0 for an absent option. A negative `options.batchSize` is truthy, so `|| 50` keeps it, and the loop at line 65 of `V2/scripts/mint/batchMint.js` never ends. That case is not modelled, and neither is a fractional size.
- BenefitRange.Range: `Array.from` throws a RangeError for a length of 2^32 or more. The model returns the whole list instead.
- PassManager.AppleWalletManager.GeneratePass: `signPass` has an empty body, so `generatePass` resolves to undefined. The created pass never reaches the caller, as in the source.
- PassManager.EventTemplate: an unset `APPLE_TEAM_ID` is `None`, and JSON copying drops it.
- EventDetails: the remaining capacity is `capacity - soldCount` and can be negative, as in the source.
- MintArgs.Parse: a negative number after `--batch` is taken as the quantity, as in the source. Only the exact argument "mint.js" marks where the script's own arguments start.
- EventConfig.GetEventMetadata: the metadata it builds has no Price attribute, so the event validator's required-attribute check refuses it (`EventMetadata.ConfigMetadataNeedsPrice`).
- ConfigValidator: the template discount range is not checked by `validateTemplateConfig`, as in the source.
- RepairMetadata: truthy attributes that are not an array get no repair, although the generator's check refuses them (`RepairMetadata.NonArrayAttributesPass`).
- AssetMetadata: the update of `templateMetadata.js`/`eventMetadata.js` moves replaced attributes to the end, as in the source.

## Findings

| source | as written | input that shows it | evidently intended | confidence | as-written member | corrected member |
|---|---|---|---|---|---|---|
| V2/solana-program/wavex-nft/programs/wavex-nft/src/lib.rs:168-175 | `create_template` initialises the template at an address the caller signs for, without seeds. `mint_nft` (lines 216-222) looks the template up at the PDA derived from `("template", template_id as 8 little-endian bytes)`. | a `create_template` and then a `mint_nft` with its template id. No template the program creates sits at a PDA, so after any sequence of transactions the mint fails to load its template | the template is created at the PDA of `("template", template_count)`, so it can be minted from | not executed | WavexProperties.MintNeverFindsTemplate | WavexProperties.CorrectedMintFindsTemplate |
| scripts/utils/benefitTypes.js:41-51 | the bounds are checked as `value < min \|\| value > max`, and likewise for the duration | a value or duration of NaN (for example `parseInt("x")`) with a valid type: both comparisons are false, so validation returns true | the validator accepts only numbers inside the bounds | not executed | BenefitTypes.NaNPassesValidation | BenefitTypes.StrictAcceptsExactlyInRange |
| V2/scripts/utils/configValidator.js:121-123 | the capacity is refused only when `capacity <= 0` | an event config with a NaN capacity: `NaN <= 0` is false, so the config passes | the validator accepts only positive capacities | not executed | ConfigValidator.NaNCapacityPasses | ConfigValidator.StrictCapacityPositive |
| scripts/admin/addBatchBenefits.js:188-198 | a `TOKEN_RANGE` with a dash becomes `Array.from` over `end - start + 1`, and then only the ids themselves are checked for NaN | `TOKEN_RANGE=1-x`: the length is NaN, the id list is empty, the NaN check finds nothing, and the script goes on with no tokens | a range whose ends are not numbers is refused | not executed | BenefitRange.DashedNonNumberPasses | BenefitRange.StrictRefusesNonNumericEnds |
| V2/scripts/mint/batchMint.js:56 | the total cost is computed as `mintPrice.mul(n)`, the ethers v5 `BigNumber` method, and printed at line 59 with `hre.ethers.formatEther`, which exists only in ethers v6 | any call whose checks pass, for example one valid recipient. Under v6 the price is a `bigint` and line 56 throws a TypeError; under v5 line 59 does. Either way no NFT is minted | the total cost is the price times the number of recipients, printed in ether, and the batches are minted | not executed | BatchMint.AsWrittenNeverMints | BatchMint.BatchMintRun |
