/**
 * The record manager as the program runs it: one mutable account store,
 * updated in place by each instruction handler. Each method performs its
 * checks in the order the program does, fails without touching the store, or
 * writes its records; its contract ties the outcome to the instruction's
 * specification function in `WavexProgram`.
 */
module WavexLedger {
  import opened Wrappers
  import opened WavexProgram
  import WavexProperties

  /** The failure of a transaction's result, if any. */
  function FailureOf(r: Result<Store, Failure>): (f: Option<Failure>)
    ensures f.None? <==> r.Ok?
  {
    if r.Ok? then None else Some(r.error)
  }

  class Ledger {
    var accounts: Store

    ghost predicate Valid()
      reads this
    {
      WellFormed(accounts)
    }

    /** A cluster holding only the given (empty) token accounts. */
    constructor(tokenAccounts: set<Pubkey>)
      ensures Valid() && NoPdaTemplates(accounts)
      ensures accounts == map a | a in tokenAccounts :: TokenAccount(0)
    {
      accounts := map a | a in tokenAccounts :: TokenAccount(0);
    }

    method Initialize(programState: Pubkey, authority: Pubkey, signers: set<nat>)
      returns (failure: Option<Failure>)
      requires Valid()
      modifies this
      ensures Valid()
      ensures failure == FailureOf(WavexProgram.Initialize(old(accounts), programState, authority, signers))
      ensures accounts == After(WavexProgram.Initialize(old(accounts), programState, authority, signers), old(accounts))
    {
      if !IsSigner(authority, signers) {
        return Some(AccountNotSigner);
      }
      if !IsSigner(programState, signers) {
        return Some(MissingSignature);
      }
      if programState in accounts {
        return Some(AccountInUse);
      }
      var state := ProgramState(authority, 0, 0);
      accounts := accounts[programState := StateAccount(state)];
      failure := None;
    }

    method CreateTemplate(
      template: Pubkey, programState: Pubkey, authority: Pubkey, signers: set<nat>,
      name: string, baseBalance: u64, price: u64, discount: u8, isVip: bool, metadataUri: string)
      returns (failure: Option<Failure>)
      requires Valid()
      modifies this
      ensures Valid()
      ensures var r := WavexProgram.CreateTemplate(old(accounts), template, programState, authority,
                         signers, name, baseBalance, price, discount, isVip, metadataUri);
        failure == FailureOf(r) && accounts == After(r, old(accounts))
    {
      var loaded := LoadState(accounts, programState);
      if loaded.Err? {
        return Some(loaded.error);
      }
      if !IsSigner(authority, signers) {
        return Some(AccountNotSigner);
      }
      if !IsSigner(template, signers) {
        return Some(MissingSignature);
      }
      if template in accounts {
        return Some(AccountInUse);
      }
      if discount > 100 {
        return Some(Program(InvalidDiscount));
      }
      if |name| == 0 {
        return Some(Program(EmptyName));
      }
      var state := loaded.value;
      if state.templateCount == U64_MAX {
        return Some(ArithmeticOverflow);
      }
      WavexProperties.ExecutePreservesWellFormed(accounts, Transaction(
        CreateTemplateIx(template, programState, authority, name, baseBalance, price, discount, isVip, metadataUri),
        signers));
      accounts := accounts[programState := StateAccount(state.(templateCount := state.templateCount + 1))];
      var record := Template(name, baseBalance, price, discount, isVip, metadataUri, true, authority);
      accounts := accounts[template := TemplateAccount(record)];
      failure := None;
    }

    method CreateEvent(
      event: Pubkey, programState: Pubkey, authority: Pubkey, signers: set<nat>,
      name: string, price: u64, capacity: u32, eventType: u8)
      returns (failure: Option<Failure>)
      requires Valid()
      modifies this
      ensures Valid()
      ensures var r := WavexProgram.CreateEvent(old(accounts), event, programState, authority,
                         signers, name, price, capacity, eventType);
        failure == FailureOf(r) && accounts == After(r, old(accounts))
    {
      var loaded := LoadState(accounts, programState);
      if loaded.Err? {
        return Some(loaded.error);
      }
      if !IsSigner(authority, signers) {
        return Some(AccountNotSigner);
      }
      if !IsSigner(event, signers) {
        return Some(MissingSignature);
      }
      if event in accounts {
        return Some(AccountInUse);
      }
      if |name| == 0 {
        return Some(Program(EmptyName));
      }
      if capacity == 0 {
        return Some(Program(InvalidCapacity));
      }
      var state := loaded.value;
      if state.eventCount == U64_MAX {
        return Some(ArithmeticOverflow);
      }
      WavexProperties.ExecutePreservesWellFormed(accounts, Transaction(
        CreateEventIx(event, programState, authority, name, price, capacity, eventType), signers));
      accounts := accounts[programState := StateAccount(state.(eventCount := state.eventCount + 1))];
      var record := Event(name, price, capacity, 0, true, eventType, authority);
      accounts := accounts[event := EventAccount(record)];
      failure := None;
    }

    method MintNft(
      mint: Pubkey, tokenAccount: Pubkey, template: Pubkey, balance: Pubkey, authority: Pubkey,
      signers: set<nat>, templateId: u64, name: string, symbol: string, uri: string)
      returns (failure: Option<Failure>)
      requires Valid()
      modifies this
      ensures Valid()
      ensures var r := WavexProgram.MintNft(old(accounts), mint, tokenAccount, template, balance,
                         authority, signers, templateId, name, symbol, uri);
        failure == FailureOf(r) && accounts == After(r, old(accounts))
    {
      // loading, in field order
      if !IsSigner(mint, signers) {
        return Some(AccountNotSigner);
      }
      var units := LoadToken(accounts, tokenAccount);
      if units.Err? {
        return Some(units.error);
      }
      var loaded := LoadTemplate(accounts, template);
      if loaded.Err? {
        return Some(loaded.error);
      }
      if !IsSigner(authority, signers) {
        return Some(AccountNotSigner);
      }
      // `init` of the balance
      if balance != BalanceAddress(tokenAccount) {
        return Some(ConstraintSeeds);
      }
      if balance in accounts {
        return Some(AccountInUse);
      }
      // constraints of the template
      if template != TemplateAddress(templateId) {
        return Some(ConstraintSeeds);
      }
      var t := loaded.value;
      if !t.active {
        return Some(Program(TemplateInactive));
      }
      // handler
      if |name| == 0 {
        return Some(Program(EmptyName));
      }
      if |symbol| == 0 {
        return Some(Program(EmptySymbol));
      }
      if |uri| == 0 {
        return Some(Program(EmptyUri));
      }
      // the handler's own `template.active` check cannot fail after the constraint
      WavexProperties.ExecutePreservesWellFormed(accounts, Transaction(
        MintNftIx(mint, tokenAccount, template, balance, authority, templateId, name, symbol, uri),
        signers));
      accounts := accounts[tokenAccount := TokenAccount(units.value + 1)];
      accounts := accounts[balance := BalanceAccount(Balance(t.baseBalance, authority, tokenAccount))];
      failure := None;
    }

    /** The corrected `create_template`, creating the template at the address
        derived from the current `template_count`. */
    method CreateTemplateAtPda(
      template: Pubkey, programState: Pubkey, authority: Pubkey, signers: set<nat>,
      name: string, baseBalance: u64, price: u64, discount: u8, isVip: bool, metadataUri: string)
      returns (failure: Option<Failure>)
      requires Valid()
      modifies this
      ensures Valid()
      ensures var r := WavexProgram.CreateTemplateAtPda(old(accounts), template, programState, authority,
                         signers, name, baseBalance, price, discount, isVip, metadataUri);
        failure == FailureOf(r) && accounts == After(r, old(accounts))
    {
      var loaded := LoadState(accounts, programState);
      if loaded.Err? {
        return Some(loaded.error);
      }
      if !IsSigner(authority, signers) {
        return Some(AccountNotSigner);
      }
      var state := loaded.value;
      if template != TemplateAddress(state.templateCount) {
        return Some(ConstraintSeeds);
      }
      if template in accounts {
        return Some(AccountInUse);
      }
      if discount > 100 {
        return Some(Program(InvalidDiscount));
      }
      if |name| == 0 {
        return Some(Program(EmptyName));
      }
      if state.templateCount == U64_MAX {
        return Some(ArithmeticOverflow);
      }
      WavexProperties.CorrectedCreatePreservesWellFormed(accounts, template, programState, authority,
        signers, name, baseBalance, price, discount, isVip, metadataUri);
      accounts := accounts[programState := StateAccount(state.(templateCount := state.templateCount + 1))];
      var record := Template(name, baseBalance, price, discount, isVip, metadataUri, true, authority);
      accounts := accounts[template := TemplateAccount(record)];
      failure := None;
    }
  }
}
