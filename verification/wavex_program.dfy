/**
 * The on-chain record manager (the `wavex_nft` Anchor program).
 *
 * The cluster is a store of accounts: a map from address to typed record.
 * Each instruction is a function from the store to either a new store or the
 * failure that aborts the whole transaction, leaving the store as it was.
 * The failure order follows Anchor's account validation: every non-`init`
 * account is loaded in field order (signer checks, existence, record kind),
 * then every `init` account is created in field order, then the `seeds` and
 * `constraint` checks of the remaining accounts run, and only then the handler.
 */
module WavexProgram {
  import opened Wrappers

  newtype u8 = x: int | 0 <= x < 0x100
  newtype u32 = x: int | 0 <= x < 0x1_0000_0000
  newtype u64 = x: int | 0 <= x < 0x1_0000_0000_0000_0000

  const U64_MAX: u64 := 0xFFFF_FFFF_FFFF_FFFF

  // ---------------------------------------------------------------- addresses

  /** An address: a keypair's public key, or a program-derived address
      (PDA). A PDA has no private key, so it can never sign a transaction; the
      derivation is a constructor, hence deterministic and injective. */
  datatype Pubkey = Key(id: nat) | Pda(program: Pubkey, tag: string, seed: Seed)

  /** The second seed of a derivation: raw bytes, or the 32 bytes of a key. */
  datatype Seed = Bytes(bytes: seq<u8>) | KeyBytes(key: Pubkey)

  /** The address the program is deployed at. */
  const PROGRAM_ID: Pubkey := Key(0)

  /** A transaction's signatures are made with keypairs; only keypair
      addresses can be signers. */
  predicate IsSigner(a: Pubkey, signers: set<nat>) {
    a.Key? && a.id in signers
  }

  function Pow256(k: nat): (p: nat)
    ensures p > 0
  {
    if k == 0 then 1 else 256 * Pow256(k - 1)
  }

  /** The `k` least significant bytes of `n`, least significant first. */
  function LeDigits(n: nat, k: nat): (b: seq<u8>)
    ensures |b| == k
  {
    if k == 0 then [] else [(n % 256) as u8] + LeDigits(n / 256, k - 1)
  }

  /** The number a little-endian byte string denotes. */
  function LeValue(b: seq<u8>): nat {
    if |b| == 0 then 0 else b[0] as nat + 256 * LeValue(b[1..])
  }

  /** `v.to_le_bytes()` for a u64. */
  function LeBytes(v: u64): (b: seq<u8>)
    ensures |b| == 8
  {
    LeDigits(v as nat, 8)
  }

  lemma {:induction false} LeDigitsValue(n: nat, k: nat)
    requires n < Pow256(k)
    ensures LeValue(LeDigits(n, k)) == n
  {
    if k > 0 {
      var q, p := n / 256, Pow256(k - 1);
      assert n == 256 * q + n % 256;
      assert 256 * q < 256 * p;
      LeDigitsValue(q, k - 1);
      var b := LeDigits(n, k);
      assert b[1..] == LeDigits(q, k - 1);
      assert b[0] as nat == n % 256;
    }
  }

  /** Reading back the eight little-endian bytes of a u64 gives the u64. */
  lemma LeBytesRoundTrip(v: u64)
    ensures LeValue(LeBytes(v)) == v as nat
  {
    assert Pow256(8) == 0x1_0000_0000_0000_0000 by {
      assert Pow256(2) == 0x1_0000;
      assert Pow256(4) == 0x1_0000_0000;
      assert Pow256(6) == 0x1_0000_0000_0000;
    }
    LeDigitsValue(v as nat, 8);
  }

  /** Seeds `[b"template", template_id.to_le_bytes()]` of `MintNFT.template`. */
  function TemplateAddress(templateId: u64): Pubkey {
    Pda(PROGRAM_ID, "template", Bytes(LeBytes(templateId)))
  }

  /** Seeds `[b"balance", token_account.key()]` of `MintNFT.balance`. */
  function BalanceAddress(tokenAccount: Pubkey): Pubkey {
    Pda(PROGRAM_ID, "balance", KeyBytes(tokenAccount))
  }

  /** Distinct template ids have distinct template addresses. */
  lemma TemplateAddressInjective(a: u64, b: u64)
    ensures TemplateAddress(a) == TemplateAddress(b) ==> a == b
  {
    if TemplateAddress(a) == TemplateAddress(b) {
      LeBytesRoundTrip(a);
      LeBytesRoundTrip(b);
    }
  }

  // ---------------------------------------------------------------- records

  datatype ProgramState = ProgramState(authority: Pubkey, templateCount: u64, eventCount: u64)

  datatype Template = Template(
    name: string, baseBalance: u64, price: u64, discount: u8, isVip: bool,
    metadataUri: string, active: bool, authority: Pubkey)

  datatype Event = Event(
    name: string, price: u64, capacity: u32, soldCount: u32, active: bool,
    eventType: u8, authority: Pubkey)

  datatype Balance = Balance(amount: u64, owner: Pubkey, tokenAccount: Pubkey)

  /** What an address holds. Token accounts belong to the SPL token program;
      only the number of units they hold matters here. */
  datatype Account =
    | StateAccount(state: ProgramState)
    | TemplateAccount(template: Template)
    | EventAccount(event: Event)
    | BalanceAccount(balance: Balance)
    | TokenAccount(units: nat)

  type Store = map<Pubkey, Account>

  // ---------------------------------------------------------------- errors

  datatype WavexError =
    | InvalidDiscount | EmptyName | EmptySymbol | EmptyUri | InvalidCapacity
    | TemplateNotFound | TemplateInactive | EventNotFound | EventFull
    | InsufficientBalance | NotAuthorized

  /** Anchor numbers the variants of an `#[error_code]` enum from 6000 on. */
  function ErrorCode(e: WavexError): (c: nat)
    ensures 6000 <= c <= 6010
    ensures c == 6000 <==> e == InvalidDiscount
    ensures c == 6010 <==> e == NotAuthorized
  {
    match e
    case InvalidDiscount => 6000
    case EmptyName => 6001
    case EmptySymbol => 6002
    case EmptyUri => 6003
    case InvalidCapacity => 6004
    case TemplateNotFound => 6005
    case TemplateInactive => 6006
    case EventNotFound => 6007
    case EventFull => 6008
    case InsufficientBalance => 6009
    case NotAuthorized => 6010
  }

  /** The variants in the order the enum declares them. */
  const DECLARED: seq<WavexError> := [
    InvalidDiscount, EmptyName, EmptySymbol, EmptyUri, InvalidCapacity,
    TemplateNotFound, TemplateInactive, EventNotFound, EventFull,
    InsufficientBalance, NotAuthorized]

  /** Why a transaction is rejected. */
  datatype Failure =
    | Program(error: WavexError)     // a `require!` or `constraint` of the program
    | AccountNotSigner               // a `Signer` account did not sign
    | AccountNotInitialized          // an `Account<T>` address holds nothing
    | AccountDiscriminatorMismatch   // an `Account<T>` address holds another kind of record
    | ConstraintSeeds                // an address is not the one its seeds derive
    | AccountInUse                   // `init` on an address that already holds a record
    | MissingSignature               // `init` without seeds on an address that did not sign
    | ArithmeticOverflow             // a checked u64 increment past its maximum

  // ---------------------------------------------------------------- loading

  function LoadState(s: Store, a: Pubkey): (r: Result<ProgramState, Failure>)
    ensures r.Ok? <==> a in s && s[a].StateAccount?
    ensures r.Ok? ==> r.value == s[a].state
  {
    if a !in s then Err(AccountNotInitialized)
    else if !s[a].StateAccount? then Err(AccountDiscriminatorMismatch)
    else Ok(s[a].state)
  }

  function LoadTemplate(s: Store, a: Pubkey): (r: Result<Template, Failure>)
    ensures r.Ok? <==> a in s && s[a].TemplateAccount?
    ensures r.Ok? ==> r.value == s[a].template
  {
    if a !in s then Err(AccountNotInitialized)
    else if !s[a].TemplateAccount? then Err(AccountDiscriminatorMismatch)
    else Ok(s[a].template)
  }

  function LoadToken(s: Store, a: Pubkey): (r: Result<nat, Failure>)
    ensures r.Ok? <==> a in s && s[a].TokenAccount?
    ensures r.Ok? ==> r.value == s[a].units
  {
    if a !in s then Err(AccountNotInitialized)
    else if !s[a].TokenAccount? then Err(AccountDiscriminatorMismatch)
    else Ok(s[a].units)
  }

  /** The store after a transaction: its result when it succeeded, the old
      store when it failed. */
  function After(r: Result<Store, Failure>, s: Store): Store {
    if r.Ok? then r.value else s
  }

  // ---------------------------------------------------------------- instructions

  /** `initialize`: an `init` of a fresh keypair account that records the
      signer as authority and zeroes both counters. */
  function Initialize(s: Store, programState: Pubkey, authority: Pubkey, signers: set<nat>)
    : Result<Store, Failure>
  {
    if !IsSigner(authority, signers) then Err(AccountNotSigner)
    else if !IsSigner(programState, signers) then Err(MissingSignature)
    else if programState in s then Err(AccountInUse)
    else Ok(s[programState := StateAccount(ProgramState(authority, 0, 0))])
  }

  /** `create_template`, with its `template` account created by `init` without
      seeds: the account must be a keypair that signs. */
  function CreateTemplate(
    s: Store, template: Pubkey, programState: Pubkey, authority: Pubkey, signers: set<nat>,
    name: string, baseBalance: u64, price: u64, discount: u8, isVip: bool, metadataUri: string)
    : Result<Store, Failure>
  {
    var ps := LoadState(s, programState);
    if ps.Err? then Err(ps.error)
    else if !IsSigner(authority, signers) then Err(AccountNotSigner)
    else if !IsSigner(template, signers) then Err(MissingSignature)
    else if template in s then Err(AccountInUse)
    else if discount > 100 then Err(Program(InvalidDiscount))
    else if |name| == 0 then Err(Program(EmptyName))
    else if ps.value.templateCount == U64_MAX then Err(ArithmeticOverflow)
    else
      Ok(s[programState := StateAccount(ps.value.(templateCount := ps.value.templateCount + 1))]
          [template := TemplateAccount(
             Template(name, baseBalance, price, discount, isVip, metadataUri, true, authority))])
  }

  /** `create_event`, with its `event` account created by `init` without seeds. */
  function CreateEvent(
    s: Store, event: Pubkey, programState: Pubkey, authority: Pubkey, signers: set<nat>,
    name: string, price: u64, capacity: u32, eventType: u8)
    : Result<Store, Failure>
  {
    var ps := LoadState(s, programState);
    if ps.Err? then Err(ps.error)
    else if !IsSigner(authority, signers) then Err(AccountNotSigner)
    else if !IsSigner(event, signers) then Err(MissingSignature)
    else if event in s then Err(AccountInUse)
    else if |name| == 0 then Err(Program(EmptyName))
    else if capacity == 0 then Err(Program(InvalidCapacity))
    else if ps.value.eventCount == U64_MAX then Err(ArithmeticOverflow)
    else
      Ok(s[programState := StateAccount(ps.value.(eventCount := ps.value.eventCount + 1))]
          [event := EventAccount(Event(name, price, capacity, 0, true, eventType, authority))])
  }

  /** `mint_nft`: loads `mint`, `token_account`, `template` and `authority`,
      creates the PDA `balance`, checks the template's seeds and `active`
      constraint, then runs the handler, which mints one unit to the token
      account (the token program's `mint_to`) and fills the balance. */
  function MintNft(
    s: Store, mint: Pubkey, tokenAccount: Pubkey, template: Pubkey, balance: Pubkey,
    authority: Pubkey, signers: set<nat>, templateId: u64, name: string, symbol: string, uri: string)
    : Result<Store, Failure>
  {
    var units := LoadToken(s, tokenAccount);
    var t := LoadTemplate(s, template);
    if !IsSigner(mint, signers) then Err(AccountNotSigner)
    else if units.Err? then Err(units.error)
    else if t.Err? then Err(t.error)
    else if !IsSigner(authority, signers) then Err(AccountNotSigner)
    else if balance != BalanceAddress(tokenAccount) then Err(ConstraintSeeds)
    else if balance in s then Err(AccountInUse)
    else if template != TemplateAddress(templateId) then Err(ConstraintSeeds)
    else if !t.value.active then Err(Program(TemplateInactive))
    else if |name| == 0 then Err(Program(EmptyName))
    else if |symbol| == 0 then Err(Program(EmptySymbol))
    else if |uri| == 0 then Err(Program(EmptyUri))
    else if !t.value.active then Err(Program(TemplateInactive))
    else
      Ok(s[tokenAccount := TokenAccount(units.value + 1)]
          [balance := BalanceAccount(Balance(t.value.baseBalance, authority, tokenAccount))])
  }

  /** The corrected `create_template`: the template is created at the PDA with
      seeds `[b"template", program_state.template_count.to_le_bytes()]`, so the
      n-th template gets id n - 1, the id `mint_nft` looks it up by. */
  function CreateTemplateAtPda(
    s: Store, template: Pubkey, programState: Pubkey, authority: Pubkey, signers: set<nat>,
    name: string, baseBalance: u64, price: u64, discount: u8, isVip: bool, metadataUri: string)
    : Result<Store, Failure>
  {
    var ps := LoadState(s, programState);
    if ps.Err? then Err(ps.error)
    else if !IsSigner(authority, signers) then Err(AccountNotSigner)
    else if template != TemplateAddress(ps.value.templateCount) then Err(ConstraintSeeds)
    else if template in s then Err(AccountInUse)
    else if discount > 100 then Err(Program(InvalidDiscount))
    else if |name| == 0 then Err(Program(EmptyName))
    else if ps.value.templateCount == U64_MAX then Err(ArithmeticOverflow)
    else
      Ok(s[programState := StateAccount(ps.value.(templateCount := ps.value.templateCount + 1))]
          [template := TemplateAccount(
             Template(name, baseBalance, price, discount, isVip, metadataUri, true, authority))])
  }

  // ---------------------------------------------------------------- transactions

  datatype Instruction =
    | InitializeIx(programState: Pubkey, authority: Pubkey)
    | CreateTemplateIx(
        template: Pubkey, programState: Pubkey, authority: Pubkey, name: string,
        baseBalance: u64, price: u64, discount: u8, isVip: bool, metadataUri: string)
    | CreateEventIx(
        event: Pubkey, programState: Pubkey, authority: Pubkey, name: string,
        price: u64, capacity: u32, eventType: u8)
    | MintNftIx(
        mint: Pubkey, tokenAccount: Pubkey, template: Pubkey, balance: Pubkey,
        authority: Pubkey, templateId: u64, name: string, symbol: string, uri: string)

  datatype Transaction = Transaction(ix: Instruction, signers: set<nat>)

  function Execute(s: Store, tx: Transaction): Result<Store, Failure> {
    match tx.ix
    case InitializeIx(ps, auth) => Initialize(s, ps, auth, tx.signers)
    case CreateTemplateIx(t, ps, auth, name, bb, price, d, vip, uri) =>
      CreateTemplate(s, t, ps, auth, tx.signers, name, bb, price, d, vip, uri)
    case CreateEventIx(e, ps, auth, name, price, cap, et) =>
      CreateEvent(s, e, ps, auth, tx.signers, name, price, cap, et)
    case MintNftIx(m, ta, t, b, auth, id, name, sym, uri) =>
      MintNft(s, m, ta, t, b, auth, tx.signers, id, name, sym, uri)
  }

  /** Transactions processed one after another; a failed one changes nothing. */
  function Run(s: Store, txs: seq<Transaction>): Store
    decreases |txs|
  {
    if |txs| == 0 then s else Run(After(Execute(s, txs[0]), s), txs[1..])
  }

  // ---------------------------------------------------------------- invariants

  predicate ValidTemplate(t: Template) {
    t.discount <= 100 && |t.name| > 0
  }

  predicate ValidEvent(e: Event) {
    |e.name| > 0 && e.capacity > 0 && e.soldCount <= e.capacity
  }

  /** What every reachable store satisfies: templates and events passed their
      handler's checks, and each balance sits at the address derived from its
      own token account, which exists. */
  predicate WellFormed(s: Store) {
    (forall a | a in s && s[a].TemplateAccount? :: ValidTemplate(s[a].template))
    && (forall a | a in s && s[a].EventAccount? :: ValidEvent(s[a].event))
    && (forall a | a in s && s[a].BalanceAccount? ::
          a == BalanceAddress(s[a].balance.tokenAccount)
          && s[a].balance.tokenAccount in s && s[s[a].balance.tokenAccount].TokenAccount?)
  }

  /** No template record sits at a program-derived address. */
  predicate NoPdaTemplates(s: Store) {
    forall a | a in s && s[a].TemplateAccount? :: a.Key?
  }
}
