/** What the instructions of the record manager promise, and what they do not. */
module WavexProperties {
  import opened Wrappers
  import opened WavexProgram

  /** Every address other than `changed` holds what it held before, and no
      address other than `changed` appears. */
  predicate OnlyChanges(s: Store, s': Store, changed: set<Pubkey>) {
    s'.Keys == s.Keys + changed
    && forall a | a in s && a !in changed :: s'[a] == s[a]
  }

  // ---------------------------------------------------------------- initialize

  /** `initialize` succeeds exactly when the authority and the new account
      both sign and the account is fresh; the new record holds the signer as
      authority and zero counters, and nothing else changes. */
  lemma InitializeSpec(s: Store, programState: Pubkey, authority: Pubkey, signers: set<nat>)
    ensures var r := Initialize(s, programState, authority, signers);
      && (r.Ok? <==> IsSigner(authority, signers) && IsSigner(programState, signers) && programState !in s)
      && (r.Ok? ==>
            && programState in r.value && r.value[programState].StateAccount?
            && r.value[programState].state.authority == authority
            && r.value[programState].state.templateCount == 0
            && r.value[programState].state.eventCount == 0
            && OnlyChanges(s, r.value, {programState}))
  {
  }

  // ---------------------------------------------------------------- create_template

  /** Once the accounts are in order, `create_template` rejects a discount
      above 100 first, then an empty name, and succeeds otherwise (unless the
      counter is at its maximum). */
  lemma CreateTemplateChecks(
    s: Store, template: Pubkey, programState: Pubkey, authority: Pubkey, signers: set<nat>,
    name: string, baseBalance: u64, price: u64, discount: u8, isVip: bool, metadataUri: string)
    requires programState in s && s[programState].StateAccount?
    requires IsSigner(authority, signers) && IsSigner(template, signers) && template !in s
    ensures var r := CreateTemplate(s, template, programState, authority, signers,
                                    name, baseBalance, price, discount, isVip, metadataUri);
      && (discount > 100 ==> r == Err(Program(InvalidDiscount)))
      && (discount <= 100 && |name| == 0 ==> r == Err(Program(EmptyName)))
      && (r.Ok? <==> discount <= 100 && |name| > 0
                     && s[programState].state.templateCount < U64_MAX)
  {
  }

  /** A successful `create_template` adds one to `template_count`, keeps
      `event_count` and the state's authority, stores every argument verbatim
      in an active template owned by the signer, and touches nothing else. */
  lemma CreateTemplateEffect(
    s: Store, template: Pubkey, programState: Pubkey, authority: Pubkey, signers: set<nat>,
    name: string, baseBalance: u64, price: u64, discount: u8, isVip: bool, metadataUri: string)
    requires CreateTemplate(s, template, programState, authority, signers,
                            name, baseBalance, price, discount, isVip, metadataUri).Ok?
    ensures var s' := CreateTemplate(s, template, programState, authority, signers,
                                     name, baseBalance, price, discount, isVip, metadataUri).value;
      && programState in s && s[programState].StateAccount?
      && s'[programState].StateAccount?
      && s'[programState].state.templateCount as int == s[programState].state.templateCount as int + 1
      && s'[programState].state.eventCount == s[programState].state.eventCount
      && s'[programState].state.authority == s[programState].state.authority
      && template !in s && s'[template].TemplateAccount?
      && OnlyChanges(s, s', {programState, template})
      && (var t := s'[template].template;
          t.name == name && t.baseBalance == baseBalance && t.price == price
          && t.discount == discount && t.isVip == isVip && t.metadataUri == metadataUri
          && t.active && t.authority == authority)
  {
  }

  // ---------------------------------------------------------------- create_event

  /** Once the accounts are in order, `create_event` rejects an empty name
      first, then a zero capacity, and succeeds otherwise. */
  lemma CreateEventChecks(
    s: Store, event: Pubkey, programState: Pubkey, authority: Pubkey, signers: set<nat>,
    name: string, price: u64, capacity: u32, eventType: u8)
    requires programState in s && s[programState].StateAccount?
    requires IsSigner(authority, signers) && IsSigner(event, signers) && event !in s
    ensures var r := CreateEvent(s, event, programState, authority, signers, name, price, capacity, eventType);
      && (|name| == 0 ==> r == Err(Program(EmptyName)))
      && (|name| > 0 && capacity == 0 ==> r == Err(Program(InvalidCapacity)))
      && (r.Ok? <==> |name| > 0 && capacity > 0 && s[programState].state.eventCount < U64_MAX)
  {
  }

  /** A successful `create_event` adds one to `event_count`, keeps
      `template_count`, and stores an active, unsold event owned by the signer. */
  lemma CreateEventEffect(
    s: Store, event: Pubkey, programState: Pubkey, authority: Pubkey, signers: set<nat>,
    name: string, price: u64, capacity: u32, eventType: u8)
    requires CreateEvent(s, event, programState, authority, signers, name, price, capacity, eventType).Ok?
    ensures var s' := CreateEvent(s, event, programState, authority, signers,
                                  name, price, capacity, eventType).value;
      && programState in s && s[programState].StateAccount?
      && s'[programState].StateAccount?
      && s'[programState].state.eventCount as int == s[programState].state.eventCount as int + 1
      && s'[programState].state.templateCount == s[programState].state.templateCount
      && s'[programState].state.authority == s[programState].state.authority
      && event !in s && s'[event].EventAccount?
      && OnlyChanges(s, s', {programState, event})
      && (var e := s'[event].event;
          e.name == name && e.price == price && e.capacity == capacity && e.soldCount == 0
          && e.active && e.eventType == eventType && e.authority == authority)
  {
  }

  // ---------------------------------------------------------------- authority

  /** Which signer creates a template makes no difference to whether it
      succeeds: the state's recorded authority is never consulted. */
  lemma AnySignerCreatesTemplate(
    s: Store, template: Pubkey, programState: Pubkey, a1: Pubkey, a2: Pubkey, signers: set<nat>,
    name: string, baseBalance: u64, price: u64, discount: u8, isVip: bool, metadataUri: string)
    requires IsSigner(a1, signers) && IsSigner(a2, signers)
    ensures CreateTemplate(s, template, programState, a1, signers, name, baseBalance, price, discount, isVip, metadataUri).Ok?
            == CreateTemplate(s, template, programState, a2, signers, name, baseBalance, price, discount, isVip, metadataUri).Ok?
  {
  }

  /** The same for events. */
  lemma AnySignerCreatesEvent(
    s: Store, event: Pubkey, programState: Pubkey, a1: Pubkey, a2: Pubkey, signers: set<nat>,
    name: string, price: u64, capacity: u32, eventType: u8)
    requires IsSigner(a1, signers) && IsSigner(a2, signers)
    ensures CreateEvent(s, event, programState, a1, signers, name, price, capacity, eventType).Ok?
            == CreateEvent(s, event, programState, a2, signers, name, price, capacity, eventType).Ok?
  {
  }

  /** No instruction ever fails with `NotAuthorized`. */
  lemma NeverNotAuthorized(s: Store, tx: Transaction)
    ensures Execute(s, tx) != Err(Program(NotAuthorized))
  {
  }

  // ---------------------------------------------------------------- mint_nft

  /** Once the accounts are loaded and the addresses derive from their seeds,
      an inactive template fails first, then an empty name, symbol or uri in
      that order; otherwise the mint succeeds. */
  lemma MintNftChecks(
    s: Store, mint: Pubkey, tokenAccount: Pubkey, template: Pubkey, balance: Pubkey,
    authority: Pubkey, signers: set<nat>, templateId: u64, name: string, symbol: string, uri: string)
    requires IsSigner(mint, signers) && IsSigner(authority, signers)
    requires tokenAccount in s && s[tokenAccount].TokenAccount?
    requires template in s && s[template].TemplateAccount?
    requires template == TemplateAddress(templateId)
    requires balance == BalanceAddress(tokenAccount) && balance !in s
    ensures var r := MintNft(s, mint, tokenAccount, template, balance, authority, signers,
                             templateId, name, symbol, uri);
      && (!s[template].template.active ==> r == Err(Program(TemplateInactive)))
      && (s[template].template.active && |name| == 0 ==> r == Err(Program(EmptyName)))
      && (s[template].template.active && |name| > 0 && |symbol| == 0 ==> r == Err(Program(EmptySymbol)))
      && (s[template].template.active && |name| > 0 && |symbol| > 0 && |uri| == 0 ==>
            r == Err(Program(EmptyUri)))
      && (r.Ok? <==> s[template].template.active && |name| > 0 && |symbol| > 0 && |uri| > 0)
  {
  }

  /** A successful `mint_nft` adds exactly one unit to the token account,
      creates the balance at the token account's derived address holding the
      template's base balance, owned by the signer, and changes nothing else:
      neither the template nor any program state. */
  lemma MintNftEffect(
    s: Store, mint: Pubkey, tokenAccount: Pubkey, template: Pubkey, balance: Pubkey,
    authority: Pubkey, signers: set<nat>, templateId: u64, name: string, symbol: string, uri: string)
    requires MintNft(s, mint, tokenAccount, template, balance, authority, signers,
                     templateId, name, symbol, uri).Ok?
    ensures var s' := MintNft(s, mint, tokenAccount, template, balance, authority, signers,
                              templateId, name, symbol, uri).value;
      && tokenAccount in s && s[tokenAccount].TokenAccount? && s'[tokenAccount].TokenAccount?
      && s'[tokenAccount].units == s[tokenAccount].units + 1
      && template in s && s[template].TemplateAccount? && s'[template] == s[template]
      && balance == BalanceAddress(tokenAccount) && balance !in s
      && s'[balance] == BalanceAccount(Balance(s[template].template.baseBalance, authority, tokenAccount))
      && OnlyChanges(s, s', {tokenAccount, balance})
  {
  }

  /** A token account gets at most one balance: once a mint to it has
      succeeded, every later mint to it fails. */
  lemma MintNftOnce(
    s: Store, mint: Pubkey, tokenAccount: Pubkey, template: Pubkey, balance: Pubkey,
    authority: Pubkey, signers: set<nat>, templateId: u64, name: string, symbol: string, uri: string,
    mint': Pubkey, template': Pubkey, balance': Pubkey, authority': Pubkey, signers': set<nat>,
    templateId': u64, name': string, symbol': string, uri': string)
    requires MintNft(s, mint, tokenAccount, template, balance, authority, signers,
                     templateId, name, symbol, uri).Ok?
    ensures var s' := MintNft(s, mint, tokenAccount, template, balance, authority, signers,
                              templateId, name, symbol, uri).value;
      MintNft(s', mint', tokenAccount, template', balance', authority', signers',
              templateId', name', symbol', uri').Err?
  {
    var s' := MintNft(s, mint, tokenAccount, template, balance, authority, signers,
                      templateId, name, symbol, uri).value;
    assert BalanceAddress(tokenAccount) in s';
  }

  // ---------------------------------------------------------------- invariants

  /** Every instruction keeps the store well formed. */
  lemma ExecutePreservesWellFormed(s: Store, tx: Transaction)
    requires WellFormed(s)
    ensures WellFormed(After(Execute(s, tx), s))
  {
    var r := Execute(s, tx);
    if r.Ok? {
      var s' := r.value;
      forall a | a in s' && s'[a].BalanceAccount?
        ensures a == BalanceAddress(s'[a].balance.tokenAccount)
        ensures s'[a].balance.tokenAccount in s' && s'[s'[a].balance.tokenAccount].TokenAccount?
      {
        if a in s && s[a].BalanceAccount? && s'[a] == s[a] {
          var ta := s[a].balance.tokenAccount;
          assert ta in s && s[ta].TokenAccount?;
        }
      }
    }
  }

  /** A store reached by any sequence of transactions from a well-formed one
      is well formed. */
  lemma {:induction false} RunPreservesWellFormed(s: Store, txs: seq<Transaction>)
    requires WellFormed(s)
    ensures WellFormed(Run(s, txs))
    decreases |txs|
  {
    if |txs| > 0 {
      ExecutePreservesWellFormed(s, txs[0]);
      RunPreservesWellFormed(After(Execute(s, txs[0]), s), txs[1..]);
    }
  }

  /** In a well-formed store two balances for the same token account are one
      and the same record. */
  lemma OneBalancePerTokenAccount(s: Store, a: Pubkey, b: Pubkey)
    requires WellFormed(s)
    requires a in s && s[a].BalanceAccount? && b in s && s[b].BalanceAccount?
    requires s[a].balance.tokenAccount == s[b].balance.tokenAccount
    ensures a == b
  {
  }

  // ---------------------------------------------------------------- templates are never found

  /** No instruction ever puts a template at a derived address: a template is
      created by `init` without seeds, which needs the new address's
      signature. */
  lemma ExecuteKeepsNoPdaTemplates(s: Store, tx: Transaction)
    requires NoPdaTemplates(s)
    ensures NoPdaTemplates(After(Execute(s, tx), s))
  {
  }

  /** `mint_nft` loads its template from a derived address, so it fails on
      every store without templates at derived addresses. */
  lemma MintNftNeedsPdaTemplate(
    s: Store, mint: Pubkey, tokenAccount: Pubkey, template: Pubkey, balance: Pubkey,
    authority: Pubkey, signers: set<nat>, templateId: u64, name: string, symbol: string, uri: string)
    requires NoPdaTemplates(s)
    ensures MintNft(s, mint, tokenAccount, template, balance, authority, signers,
                    templateId, name, symbol, uri).Err?
  {
  }

  /** Starting from a cluster that holds no template at a derived address
      (every cluster the program was deployed on), no sequence of
      transactions ever leads to a successful `mint_nft`. */
  lemma {:induction false} MintNeverFindsTemplate(
    s: Store, txs: seq<Transaction>, mint: Pubkey, tokenAccount: Pubkey, template: Pubkey,
    balance: Pubkey, authority: Pubkey, signers: set<nat>, templateId: u64,
    name: string, symbol: string, uri: string)
    requires NoPdaTemplates(s)
    ensures MintNft(Run(s, txs), mint, tokenAccount, template, balance, authority, signers,
                    templateId, name, symbol, uri).Err?
    decreases |txs|
  {
    if |txs| == 0 {
      MintNftNeedsPdaTemplate(s, mint, tokenAccount, template, balance, authority, signers,
                              templateId, name, symbol, uri);
    } else {
      ExecuteKeepsNoPdaTemplates(s, txs[0]);
      MintNeverFindsTemplate(After(Execute(s, txs[0]), s), txs[1..], mint, tokenAccount,
                             template, balance, authority, signers, templateId, name, symbol, uri);
    }
  }

  // ---------------------------------------------------------------- the corrected program

  /** With templates created at `("template", template_count)`, the template
      just created is found by `mint_nft` under the id the counter had, and
      the minted balance holds its base balance. */
  lemma CorrectedMintFindsTemplate(
    s: Store, programState: Pubkey, creator: Pubkey, signers: set<nat>,
    templateName: string, baseBalance: u64, price: u64, discount: u8, isVip: bool, metadataUri: string,
    mint: Pubkey, tokenAccount: Pubkey, authority: Pubkey, name: string, symbol: string, uri: string)
    requires programState in s && s[programState].StateAccount?
    requires var id := s[programState].state.templateCount;
      CreateTemplateAtPda(s, TemplateAddress(id), programState, creator, signers,
                          templateName, baseBalance, price, discount, isVip, metadataUri).Ok?
    requires IsSigner(mint, signers) && IsSigner(authority, signers)
    requires tokenAccount in s && s[tokenAccount].TokenAccount? && BalanceAddress(tokenAccount) !in s
    requires |name| > 0 && |symbol| > 0 && |uri| > 0
    ensures var id := s[programState].state.templateCount;
      var s' := CreateTemplateAtPda(s, TemplateAddress(id), programState, creator, signers,
                                    templateName, baseBalance, price, discount, isVip, metadataUri).value;
      var r := MintNft(s', mint, tokenAccount, TemplateAddress(id), BalanceAddress(tokenAccount),
                       authority, signers, id, name, symbol, uri);
      r.Ok? && r.value[BalanceAddress(tokenAccount)].balance.amount == baseBalance
  {
    var id := s[programState].state.templateCount;
    var s' := CreateTemplateAtPda(s, TemplateAddress(id), programState, creator, signers,
                                  templateName, baseBalance, price, discount, isVip, metadataUri).value;
    assert s'[TemplateAddress(id)].TemplateAccount?;
    assert tokenAccount != TemplateAddress(id) && tokenAccount != programState;
    assert s'[tokenAccount] == s[tokenAccount];
    assert BalanceAddress(tokenAccount) != programState;
  }

  /** The corrected `create_template` keeps the n-th template at the address
      derived from id n - 1: whenever it succeeds, the new template sits at
      the derived address of the counter's old value. */
  lemma CorrectedTemplateAddress(
    s: Store, template: Pubkey, programState: Pubkey, authority: Pubkey, signers: set<nat>,
    name: string, baseBalance: u64, price: u64, discount: u8, isVip: bool, metadataUri: string)
    requires CreateTemplateAtPda(s, template, programState, authority, signers,
                                 name, baseBalance, price, discount, isVip, metadataUri).Ok?
    ensures programState in s && s[programState].StateAccount?
    ensures template == TemplateAddress(s[programState].state.templateCount)
    ensures var s' := CreateTemplateAtPda(s, template, programState, authority, signers,
                                          name, baseBalance, price, discount, isVip, metadataUri).value;
      s'[programState].StateAccount?
      && s'[programState].state.templateCount as int == s[programState].state.templateCount as int + 1
      && s'[template].TemplateAccount? && s'[template].template.active
  {
  }

  /** The corrected `create_template` keeps the store well formed. */
  lemma CorrectedCreatePreservesWellFormed(
    s: Store, template: Pubkey, programState: Pubkey, authority: Pubkey, signers: set<nat>,
    name: string, baseBalance: u64, price: u64, discount: u8, isVip: bool, metadataUri: string)
    requires WellFormed(s)
    ensures WellFormed(After(CreateTemplateAtPda(s, template, programState, authority, signers,
                                                 name, baseBalance, price, discount, isVip, metadataUri), s))
  {
  }

  // ---------------------------------------------------------------- record sizes

  datatype RecordKind = ProgramStateRecord | TemplateRecord | EventRecord | BalanceRecord

  /** The widths `LEN` reserves for each field, in declaration order: 32 for a
      key, 8 for a u64, 4 for a u32, 1 for a u8 or bool, and the stated
      maximum for a string (32 for a name, 64 for a metadata uri). */
  function FieldWidths(kind: RecordKind): seq<nat> {
    match kind
    case ProgramStateRecord => [32, 8, 8]
    case TemplateRecord => [32, 8, 8, 1, 1, 64, 1, 32]
    case EventRecord => [32, 8, 4, 4, 1, 1, 32]
    case BalanceRecord => [8, 32, 32]
  }

  function Sum(xs: seq<nat>): nat {
    if |xs| == 0 then 0 else xs[0] + Sum(xs[1..])
  }

  /** `LEN`: the 8-byte account discriminator plus the field widths. */
  function Len(kind: RecordKind): (n: nat)
    ensures n >= 8
  {
    8 + Sum(FieldWidths(kind))
  }

  lemma RecordLengths()
    ensures Len(ProgramStateRecord) == 56
    ensures Len(TemplateRecord) == 155
    ensures Len(EventRecord) == 90
    ensures Len(BalanceRecord) == 80
  {
    assert Sum([32, 8, 8]) == 48;
    assert Sum([32, 8, 8, 1, 1, 64, 1, 32]) == 147;
    assert Sum([32, 8, 4, 4, 1, 1, 32]) == 82;
    assert Sum([8, 32, 32]) == 72;
  }

  /** Distinct errors have distinct codes. */
  lemma ErrorCodesDistinct(a: WavexError, b: WavexError)
    ensures ErrorCode(a) == ErrorCode(b) ==> a == b
  {
  }

  /** The variant declared at position `i` has code `6000 + i`, and every
      variant is declared exactly once. */
  lemma ErrorCodesInDeclarationOrder()
    ensures forall e: WavexError :: e in DECLARED
    ensures forall i | 0 <= i < |DECLARED| :: ErrorCode(DECLARED[i]) == 6000 + i
    ensures forall i, j | 0 <= i < j < |DECLARED| :: DECLARED[i] != DECLARED[j]
  {
    forall e: WavexError ensures e in DECLARED {
      assert DECLARED[ErrorCode(e) - 6000] == e;
    }
  }
}
