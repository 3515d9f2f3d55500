/**
 * The `take` instruction as a function of the cluster state: Anchor's
 * validation of the `Take` accounts (including `init_if_needed`), the two
 * handler steps `transfer_to_maker` and `transfer_to_taker_and_close_vault`,
 * and the `close = taker` of the escrow record when the instruction exits.
 * An `Err` anywhere is the result of the whole instruction, and the runtime
 * then discards every change, so an `Err` carries no state.
 */
module TakeInstruction {
  import opened LittleEndian
  import opened Addresses
  import opened Totals
  import opened Chain
  import opened TokenProgram

  /** The accounts a `take` names, by address (programs and rent sysvar aside). */
  datatype TakeAccounts = TakeAccounts(
    maker: Address,
    taker: Address,
    mintA: Address,
    mintB: Address,
    escrow: Address,
    vault: Address,
    makerAtaB: Address,
    takerAtaB: Address,
    takerAtaA: Address)

  /**
   * What account validation hands to the handler: the state once the
   * `init_if_needed` accounts exist, the escrow record as deserialized, and
   * the vault balance as deserialized (the handler reads these cached
   * values, not the accounts' later contents).
   */
  datatype Loaded = Loaded(state: State, escrow: Escrow, vaultAmount: nat)

  /** `associated_token::mint = mint, associated_token::authority = wallet` on an existing account. */
  function CheckAssociated(s: State, address: Address, wallet: Address, mint: Address): Result<TokenAccount>
  {
    if address !in s.tokens then Err(AccountNotInitialized)
    else if address != AssociatedTokenAddress(wallet, mint) then Err(ConstraintAssociated)
    else if s.tokens[address].mint != mint then Err(ConstraintTokenMint)
    else if s.tokens[address].owner != wallet then Err(ConstraintTokenOwner)
    else Ok(s.tokens[address])
  }

  /** `init_if_needed, payer = payer` with the same associated-token constraints. */
  function InitIfNeeded(s: State, payer: Address, address: Address, wallet: Address,
                        mint: Address, rent: nat): Result<State>
  {
    if address in s.tokens then
      var existing :- CheckAssociated(s, address, wallet, mint);
      Ok(s)
    else if address != AssociatedTokenAddress(wallet, mint) then Err(ConstraintAssociated)
    else CreateAssociatedTokenAccount(s, payer, wallet, mint, rent)
  }

  /**
   * Anchor's validation of the `Take` accounts, in its three phases: every
   * account that is not `init_if_needed` is loaded in field order (the
   * taker's signature, the two mints, the record, the vault and the taker's
   * mint-B account must exist); then the two `init_if_needed` fields run in
   * field order; then the remaining constraints are checked in field order
   * on the accounts as loaded.
   */
  function LoadAccounts(s: State, a: TakeAccounts, signers: set<Address>, rent: nat): Result<Loaded>
  {
    if a.taker !in signers then Err(MissingSigner)
    else if a.mintA !in s.mints || a.mintB !in s.mints then Err(InvalidMint)
    else if a.escrow !in s.escrows || a.vault !in s.tokens || a.takerAtaB !in s.tokens then Err(AccountNotInitialized)
    else
      var s1 :- InitIfNeeded(s, a.taker, a.makerAtaB, a.maker, a.mintB, rent);
      var s2 :- InitIfNeeded(s1, a.taker, a.takerAtaA, a.taker, a.mintA, rent);
      var e := s.escrows[a.escrow];
      if e.maker != a.maker || e.mintA != a.mintA || e.mintB != a.mintB then Err(ConstraintHasOne)
      else if a.escrow != EscrowAddress(a.maker, e.seed, e.bump) then Err(ConstraintSeeds)
      else if a.escrow == a.taker then Err(ConstraintClose)
      else
        var vault :- CheckAssociated(s, a.vault, a.escrow, a.mintA);
        var takerB :- CheckAssociated(s, a.takerAtaB, a.taker, a.mintB);
        Ok(Loaded(s2, e, vault.amount))
  }

  /** `transfer_to_maker`: the taker pays the maker the amount of mint B the record asks for. */
  function TransferToMaker(s: State, a: TakeAccounts, signers: set<Address>, e: Escrow): Result<State>
  {
    TransferChecked(s, a.takerAtaB, a.mintB, a.makerAtaB, a.taker, e.amount as nat, signers)
  }

  /** The signers of a CPI made with the escrow's `signer_seeds`. */
  function VaultSigners(a: TakeAccounts, e: Escrow, signers: set<Address>): set<Address>
  {
    signers + {Derive(ESCROW_PROGRAM, EscrowSeeds(a.maker, e.seed, e.bump))}
  }

  /**
   * `transfer_to_taker_and_close_vault`: the escrow, signing with its seeds,
   * sends the loaded vault balance to the taker and closes the vault into
   * the maker's lamports.
   */
  function TransferToTakerAndCloseVault(s: State, a: TakeAccounts, signers: set<Address>,
                                        e: Escrow, vaultAmount: nat): Result<State>
  {
    var pdaSigners := VaultSigners(a, e, signers);
    var s1 :- TransferChecked(s, a.vault, a.mintA, a.takerAtaA, a.escrow, vaultAmount, pdaSigners);
    CloseAccount(s1, a.vault, a.maker, a.escrow, pdaSigners)
  }

  /** `close = taker` on exit: the record is deleted and its lamports go to the taker. */
  function CloseEscrow(s: State, a: TakeAccounts): State
  {
    s.(escrows := s.escrows - {a.escrow}, lamports := Sweep(s.lamports, a.escrow, a.taker))
  }

  /** The whole `take` instruction: pay the maker, then release the vault, then close the record. */
  function Take(s: State, a: TakeAccounts, signers: set<Address>, rent: nat): Result<State>
  {
    var l :- LoadAccounts(s, a, signers, rent);
    var s1 :- TransferToMaker(l.state, a, signers, l.escrow);
    var s2 :- TransferToTakerAndCloseVault(s1, a, signers, l.escrow, l.vaultAmount);
    Ok(CloseEscrow(s2, a))
  }

  /** The rent the taker pays: `rent` for each distinct `init_if_needed` account that does not exist yet. */
  function RentPaid(s: State, a: TakeAccounts, rent: nat): nat
  {
    (if a.makerAtaB in s.tokens then 0 else rent)
    + (if a.takerAtaA in s.tokens || a.takerAtaA == a.makerAtaB then 0 else rent)
  }

  /** The token accounts after the payment: `ask` moves from the taker's mint-B account to the maker's. */
  function PayMaker(t: map<Address, TokenAccount>, a: TakeAccounts, ask: nat): map<Address, TokenAccount>
    requires a.takerAtaB in t && a.makerAtaB in t && t[a.takerAtaB].amount >= ask
  {
    t[a.takerAtaB := t[a.takerAtaB].(amount := t[a.takerAtaB].amount - ask)]
     [a.makerAtaB := t[a.makerAtaB].(amount := t[a.makerAtaB].amount + ask)]
  }

  /** The token accounts after the release: `deposit` moves to the taker's mint-A account and the vault is gone. */
  function ReleaseVault(t: map<Address, TokenAccount>, a: TakeAccounts, deposit: nat): map<Address, TokenAccount>
    requires a.takerAtaA in t
  {
    (t - {a.vault})[a.takerAtaA := t[a.takerAtaA].(amount := t[a.takerAtaA].amount + deposit)]
  }

  /**
   * `init_if_needed` succeeds only on the associated account of the wallet
   * and mint; an existing one must hold the mint for the wallet and is left
   * as it is, a missing one is created empty at the payer's expense.
   */
  lemma InitIfNeededEffect(s: State, payer: Address, address: Address, wallet: Address, mint: Address, rent: nat)
    ensures var r := InitIfNeeded(s, payer, address, wallet, mint, rent);
            r.Ok? ==>
              && address == AssociatedTokenAddress(wallet, mint)
              && address in r.value.tokens
              && r.value.tokens[address].mint == mint && r.value.tokens[address].owner == wallet
              && r.value.mints == s.mints && r.value.escrows == s.escrows
              && (address in s.tokens ==> r.value == s)
              && (address !in s.tokens ==>
                    && r.value.tokens == s.tokens[address := TokenAccount(mint, wallet, 0)]
                    && (payer != address ==>
                          && Lamports(r.value, address) == Lamports(s, address) + rent
                          && Lamports(r.value, payer) == Lamports(s, payer) - rent))
              && (forall x :: x != payer && x != address ==> Lamports(r.value, x) == Lamports(s, x))
  {
    if address !in s.tokens {
      CreateAssociatedAdds(s, payer, wallet, mint, rent);
    }
  }

  /** `init_if_needed` mints nothing and loses no lamports. */
  lemma InitIfNeededConserves(s: State, payer: Address, address: Address, wallet: Address, mint: Address, rent: nat)
    requires InitIfNeeded(s, payer, address, wallet, mint, rent).Ok?
    ensures var r := InitIfNeeded(s, payer, address, wallet, mint, rent).value;
            && TotalLamports(r) == TotalLamports(s)
            && (forall m :: Supply(r.tokens, m) == Supply(s.tokens, m))
            && (Valid(s) ==> Valid(r))
  {
    if address !in s.tokens {
      CreateAssociatedConserves(s, payer, wallet, mint, rent);
    }
  }

  /**
   * What a successful validation establishes about the accounts it was
   * given: the signer, the mints, the record's maker and mints, its derived
   * address, the vault, and all three counterpart accounts.
   */
  lemma LoadAccountsChecks(s: State, a: TakeAccounts, signers: set<Address>, rent: nat)
    ensures var r := LoadAccounts(s, a, signers, rent);
            r.Ok? ==>
              && a.taker in signers && a.mintA in s.mints && a.mintB in s.mints
              && a.escrow in s.escrows && r.value.escrow == s.escrows[a.escrow]
              && r.value.escrow.maker == a.maker
              && r.value.escrow.mintA == a.mintA && r.value.escrow.mintB == a.mintB
              && a.escrow == EscrowAddress(a.maker, r.value.escrow.seed, r.value.escrow.bump)
              && a.escrow != a.taker
              && a.vault == AssociatedTokenAddress(a.escrow, a.mintA) && a.vault in s.tokens
              && s.tokens[a.vault].mint == a.mintA && s.tokens[a.vault].owner == a.escrow
              && r.value.vaultAmount == s.tokens[a.vault].amount
              && a.makerAtaB == AssociatedTokenAddress(a.maker, a.mintB)
              && a.takerAtaB == AssociatedTokenAddress(a.taker, a.mintB)
              && a.takerAtaA == AssociatedTokenAddress(a.taker, a.mintA)
              && a.takerAtaB in s.tokens
              && s.tokens[a.takerAtaB].mint == a.mintB && s.tokens[a.takerAtaB].owner == a.taker
              && (a.makerAtaB in s.tokens ==> s.tokens[a.makerAtaB].mint == a.mintB && s.tokens[a.makerAtaB].owner == a.maker)
              && (a.takerAtaA in s.tokens ==> s.tokens[a.takerAtaA].mint == a.mintA && s.tokens[a.takerAtaA].owner == a.taker)
  {
    var r := LoadAccounts(s, a, signers, rent);
    if r.Ok? {
      InitIfNeededEffect(s, a.taker, a.makerAtaB, a.maker, a.mintB, rent);
    }
  }

  /**
   * Validation only adds the two `init_if_needed` accounts, empty, and
   * leaves every existing token account, the mints and the records as
   * they were.
   */
  lemma LoadAccountsTokens(s: State, a: TakeAccounts, signers: set<Address>, rent: nat)
    ensures var r := LoadAccounts(s, a, signers, rent);
            r.Ok? ==>
              var t := r.value.state.tokens;
              && t.Keys == s.tokens.Keys + {a.makerAtaB, a.takerAtaA}
              && (forall k :: k in s.tokens ==> t[k] == s.tokens[k])
              && t[a.makerAtaB].mint == a.mintB && t[a.makerAtaB].owner == a.maker
              && t[a.takerAtaB].mint == a.mintB && t[a.takerAtaB].owner == a.taker
              && t[a.takerAtaA].mint == a.mintA && t[a.takerAtaA].owner == a.taker
              && Held(t, a.mintB, a.makerAtaB) == Held(s.tokens, a.mintB, a.makerAtaB)
              && Held(t, a.mintA, a.takerAtaA) == Held(s.tokens, a.mintA, a.takerAtaA)
              && r.value.state.mints == s.mints && r.value.state.escrows == s.escrows
  {
    var r := LoadAccounts(s, a, signers, rent);
    if r.Ok? {
      var s1 := InitIfNeeded(s, a.taker, a.makerAtaB, a.maker, a.mintB, rent).value;
      InitIfNeededEffect(s, a.taker, a.makerAtaB, a.maker, a.mintB, rent);
      InitIfNeededEffect(s1, a.taker, a.takerAtaA, a.taker, a.mintA, rent);
    }
  }

  /**
   * Validation moves lamports only from the taker to the accounts it
   * creates: each counterpart account that did not exist gains `rent`, and
   * the taker pays `rent` once per account created.
   */
  lemma LoadAccountsLamports(s: State, a: TakeAccounts, signers: set<Address>, rent: nat)
    ensures var r := LoadAccounts(s, a, signers, rent);
            r.Ok? ==>
              && (forall x :: x != a.taker && x != a.makerAtaB && x != a.takerAtaA ==>
                    Lamports(r.value.state, x) == Lamports(s, x))
              && (a.taker != a.makerAtaB ==>
                    Lamports(r.value.state, a.makerAtaB)
                    == Lamports(s, a.makerAtaB) + (if a.makerAtaB in s.tokens then 0 else rent))
              && (a.taker != a.takerAtaA ==>
                    Lamports(r.value.state, a.takerAtaA)
                    == Lamports(s, a.takerAtaA) + (if a.takerAtaA in s.tokens then 0 else rent))
              && (a.taker != a.makerAtaB && a.taker != a.takerAtaA ==>
                    Lamports(r.value.state, a.taker) + RentPaid(s, a, rent) == Lamports(s, a.taker))
  {
    var r := LoadAccounts(s, a, signers, rent);
    if r.Ok? {
      var s1 := InitIfNeeded(s, a.taker, a.makerAtaB, a.maker, a.mintB, rent).value;
      InitIfNeededEffect(s, a.taker, a.makerAtaB, a.maker, a.mintB, rent);
      InitIfNeededEffect(s1, a.taker, a.takerAtaA, a.taker, a.mintA, rent);
    }
  }

  /** Validation mints nothing and loses no lamports. */
  lemma LoadAccountsConserves(s: State, a: TakeAccounts, signers: set<Address>, rent: nat)
    requires LoadAccounts(s, a, signers, rent).Ok?
    ensures var r := LoadAccounts(s, a, signers, rent).value.state;
            && TotalLamports(r) == TotalLamports(s)
            && (forall m :: Supply(r.tokens, m) == Supply(s.tokens, m))
            && (Valid(s) ==> Valid(r))
  {
    var s1 := InitIfNeeded(s, a.taker, a.makerAtaB, a.maker, a.mintB, rent).value;
    InitIfNeededConserves(s, a.taker, a.makerAtaB, a.maker, a.mintB, rent);
    InitIfNeededConserves(s1, a.taker, a.takerAtaA, a.taker, a.mintA, rent);
  }

  /**
   * A take is rejected unless the taker signed, the record exists and
   * names the supplied maker and mints, the record sits at the address its
   * seeds derive, the vault is the escrow's associated mint-A account, and
   * each counterpart account is the associated account of the right wallet
   * and mint, holding that mint for that wallet if it already exists.
   */
  lemma TakeChecksAccounts(s: State, a: TakeAccounts, signers: set<Address>, rent: nat)
    requires Take(s, a, signers, rent).Ok?
    ensures a.taker in signers && a.mintA in s.mints && a.mintB in s.mints
    ensures a.escrow in s.escrows
    ensures var e := s.escrows[a.escrow];
            && e.maker == a.maker && e.mintA == a.mintA && e.mintB == a.mintB
            && a.escrow == EscrowAddress(a.maker, e.seed, e.bump)
    ensures a.escrow != a.taker
    ensures a.vault == AssociatedTokenAddress(a.escrow, a.mintA) && a.vault in s.tokens
    ensures s.tokens[a.vault].mint == a.mintA && s.tokens[a.vault].owner == a.escrow
    ensures a.makerAtaB == AssociatedTokenAddress(a.maker, a.mintB)
    ensures a.takerAtaB == AssociatedTokenAddress(a.taker, a.mintB)
    ensures a.takerAtaA == AssociatedTokenAddress(a.taker, a.mintA)
    ensures a.takerAtaB in s.tokens && s.tokens[a.takerAtaB].mint == a.mintB && s.tokens[a.takerAtaB].owner == a.taker
    ensures a.makerAtaB in s.tokens ==> s.tokens[a.makerAtaB].mint == a.mintB && s.tokens[a.makerAtaB].owner == a.maker
    ensures a.takerAtaA in s.tokens ==> s.tokens[a.takerAtaA].mint == a.mintA && s.tokens[a.takerAtaA].owner == a.taker
  {
    LoadAccountsChecks(s, a, signers, rent);
  }

  /**
   * The one authority that can sign for the vault is the escrow address,
   * and the only seeds that derive it are the maker, the record's seed and
   * the record's bump.
   */
  lemma VaultSignedOnlyByEscrowSeeds(s: State, a: TakeAccounts, signers: set<Address>, rent: nat,
                                     maker: Address, seed: u64, bump: byte)
    requires Take(s, a, signers, rent).Ok?
    ensures a.escrow in s.escrows && a.vault in s.tokens && s.tokens[a.vault].owner == a.escrow
    ensures EscrowAddress(maker, seed, bump) == s.tokens[a.vault].owner
        <==> maker == a.maker && seed == s.escrows[a.escrow].seed && bump == s.escrows[a.escrow].bump
  {
    LoadAccountsChecks(s, a, signers, rent);
    var e := s.escrows[a.escrow];
    EscrowAddressInjective(maker, seed, bump, a.maker, e.seed, e.bump);
  }

  /**
   * If validation passes but the taker holds less of mint B than the record
   * asks for, the payment fails and so does the whole take: the vault is
   * never touched.
   */
  lemma TakeFailsWithoutFunds(s: State, a: TakeAccounts, signers: set<Address>, rent: nat)
    requires LoadAccounts(s, a, signers, rent).Ok?
    requires a.takerAtaB in s.tokens && a.escrow in s.escrows
    requires s.tokens[a.takerAtaB].amount < s.escrows[a.escrow].amount as nat
    ensures Take(s, a, signers, rent) == Err(InsufficientFunds)
  {
    LoadAccountsChecks(s, a, signers, rent);
    LoadAccountsTokens(s, a, signers, rent);
  }

  /**
   * The payment alone: between two distinct accounts it moves exactly the
   * asked amount of mint B and changes nothing else; when the taker's
   * mint-B account is the maker's (a self-take) it changes nothing at all.
   */
  lemma TransferToMakerEffect(s: State, a: TakeAccounts, signers: set<Address>, e: Escrow)
    requires TransferToMaker(s, a, signers, e).Ok?
    ensures a.takerAtaB in s.tokens && a.makerAtaB in s.tokens
    ensures s.tokens[a.takerAtaB].amount >= e.amount as nat
    ensures a.takerAtaB == a.makerAtaB ==> TransferToMaker(s, a, signers, e).value == s
    ensures var r := TransferToMaker(s, a, signers, e).value;
            a.takerAtaB != a.makerAtaB ==>
              && r.lamports == s.lamports && r.escrows == s.escrows && r.mints == s.mints
              && r.tokens == PayMaker(s.tokens, a, e.amount as nat)
  {
  }

  /**
   * The release alone: between two distinct accounts it moves the given
   * vault balance to the taker's mint-A account, then deletes the vault
   * and sweeps its lamports to the maker.
   */
  lemma ReleaseVaultEffect(s: State, a: TakeAccounts, signers: set<Address>, e: Escrow, v: nat)
    requires TransferToTakerAndCloseVault(s, a, signers, e, v).Ok?
    requires a.vault != a.takerAtaA
    ensures a.vault in s.tokens && a.takerAtaA in s.tokens && s.tokens[a.vault].amount == v
    ensures var r := TransferToTakerAndCloseVault(s, a, signers, e, v).value;
            && r.escrows == s.escrows && r.mints == s.mints
            && r.lamports == Sweep(s.lamports, a.vault, a.maker)
            && r.tokens == ReleaseVault(s.tokens, a, v)
  {
    var pda := VaultSigners(a, e, signers);
    var s1 := TransferChecked(s, a.vault, a.mintA, a.takerAtaA, a.escrow, v, pda).value;
    var t := s.tokens[a.vault := s.tokens[a.vault].(amount := 0)];
    assert s1.tokens == t[a.takerAtaA := s.tokens[a.takerAtaA].(amount := s.tokens[a.takerAtaA].amount + v)];
    assert (s1.tokens - {a.vault}) == (s.tokens - {a.vault})[a.takerAtaA := s.tokens[a.takerAtaA].(amount := s.tokens[a.takerAtaA].amount + v)];
  }

  /** The release mints nothing and loses no lamports. */
  lemma ReleaseVaultConserves(s: State, a: TakeAccounts, signers: set<Address>, e: Escrow, v: nat)
    requires TransferToTakerAndCloseVault(s, a, signers, e, v).Ok?
    ensures var r := TransferToTakerAndCloseVault(s, a, signers, e, v).value;
            && TotalLamports(r) == TotalLamports(s)
            && (forall m :: Supply(r.tokens, m) == Supply(s.tokens, m))
            && (Valid(s) ==> Valid(r))
  {
    var pda := VaultSigners(a, e, signers);
    TransferCheckedConserves(s, a.vault, a.mintA, a.takerAtaA, a.escrow, v, pda);
    var s1 := TransferChecked(s, a.vault, a.mintA, a.takerAtaA, a.escrow, v, pda).value;
    CloseAccountConserves(s1, a.vault, a.maker, a.escrow, pda);
  }

  /** The three stages of a successful take, each of which succeeded. */
  lemma TakeStages(s: State, a: TakeAccounts, signers: set<Address>, rent: nat)
    requires Take(s, a, signers, rent).Ok?
    ensures LoadAccounts(s, a, signers, rent).Ok?
    ensures var l := LoadAccounts(s, a, signers, rent).value;
            && TransferToMaker(l.state, a, signers, l.escrow).Ok?
            && var s1 := TransferToMaker(l.state, a, signers, l.escrow).value;
               && TransferToTakerAndCloseVault(s1, a, signers, l.escrow, l.vaultAmount).Ok?
               && Take(s, a, signers, rent).value
                  == CloseEscrow(TransferToTakerAndCloseVault(s1, a, signers, l.escrow, l.vaultAmount).value, a)
  {
  }

  /** Distinct makers and mints, and an escrow that is not the taker, keep the four token accounts of a take apart. */
  lemma TakeAccountsDistinct(a: TakeAccounts)
    requires a.maker != a.taker && a.mintA != a.mintB && a.escrow != a.taker
    requires a.vault == AssociatedTokenAddress(a.escrow, a.mintA)
    requires a.makerAtaB == AssociatedTokenAddress(a.maker, a.mintB)
    requires a.takerAtaB == AssociatedTokenAddress(a.taker, a.mintB)
    requires a.takerAtaA == AssociatedTokenAddress(a.taker, a.mintA)
    ensures a.vault != a.makerAtaB && a.vault != a.takerAtaB && a.vault != a.takerAtaA
    ensures a.makerAtaB != a.takerAtaB && a.makerAtaB != a.takerAtaA && a.takerAtaB != a.takerAtaA
  {
    AssociatedTokenAddressInjective(a.maker, a.mintB, a.taker, a.mintB);
    AssociatedTokenAddressInjective(a.escrow, a.mintA, a.taker, a.mintA);
    AssociatedTokenAddressInjective(a.escrow, a.mintA, a.maker, a.mintB);
    AssociatedTokenAddressInjective(a.escrow, a.mintA, a.taker, a.mintB);
    AssociatedTokenAddressInjective(a.maker, a.mintB, a.taker, a.mintA);
    AssociatedTokenAddressInjective(a.taker, a.mintB, a.taker, a.mintA);
  }

  /**
   * The token-map arithmetic of a settlement: validation added the two
   * counterpart accounts, the payment moved `ask` from taker to maker, the
   * release moved `deposit` from the vault to the taker and deleted it.
   */
  lemma SettlementOnMaps(a: TakeAccounts, before: map<Address, TokenAccount>, t0: map<Address, TokenAccount>,
                         ask: nat, deposit: nat)
    requires a.vault in before && a.takerAtaB in before
    requires a.vault != a.makerAtaB && a.vault != a.takerAtaB && a.vault != a.takerAtaA
    requires a.makerAtaB != a.takerAtaB && a.makerAtaB != a.takerAtaA && a.takerAtaB != a.takerAtaA
    requires t0.Keys == before.Keys + {a.makerAtaB, a.takerAtaA}
    requires forall k :: k in before ==> t0[k] == before[k]
    requires t0[a.makerAtaB].mint == a.mintB && t0[a.takerAtaA].mint == a.mintA
    requires Held(t0, a.mintB, a.makerAtaB) == Held(before, a.mintB, a.makerAtaB)
    requires Held(t0, a.mintA, a.takerAtaA) == Held(before, a.mintA, a.takerAtaA)
    requires t0[a.takerAtaB].amount >= ask
    ensures a.takerAtaA in PayMaker(t0, a, ask)
    ensures var t2 := ReleaseVault(PayMaker(t0, a, ask), a, deposit);
            && a.makerAtaB in t2 && a.takerAtaB in t2 && a.takerAtaA in t2
            && Held(t2, a.mintB, a.makerAtaB) == Held(before, a.mintB, a.makerAtaB) + ask
            && t2[a.takerAtaB].amount + ask == before[a.takerAtaB].amount
            && Held(t2, a.mintA, a.takerAtaA) == Held(before, a.mintA, a.takerAtaA) + deposit
            && a.vault !in t2
            && t2.Keys == before.Keys - {a.vault} + {a.makerAtaB, a.takerAtaA}
            && (forall k :: k in before && k != a.vault && k != a.makerAtaB && k != a.takerAtaB && k != a.takerAtaA
                  ==> t2[k] == before[k])
  {
    var t1 := PayMaker(t0, a, ask);
    var t2 := ReleaseVault(t1, a, deposit);
    assert t2[a.makerAtaB] == t1[a.makerAtaB];
    assert t2[a.takerAtaB] == t1[a.takerAtaB];
    assert t1[a.takerAtaA] == t0[a.takerAtaA];
  }

  /**
   * The lamport arithmetic of a settlement: validation moved rent from the
   * taker into the accounts it created, closing the vault swept it to the
   * maker and closing the record swept it to the taker.
   */
  lemma SettlementOnLamports(a: TakeAccounts, before: State, loaded: State, after: State, paid: nat)
    requires a.maker != a.taker && a.maker != a.vault && a.maker != a.escrow && a.maker != a.makerAtaB
    requires a.maker != a.takerAtaA && a.taker != a.vault && a.taker != a.escrow
    requires a.vault != a.escrow && a.vault != a.makerAtaB && a.vault != a.takerAtaA
    requires a.escrow != a.makerAtaB && a.escrow != a.takerAtaA
    requires forall x :: x != a.taker && x != a.makerAtaB && x != a.takerAtaA ==> Lamports(loaded, x) == Lamports(before, x)
    requires Lamports(loaded, a.taker) + paid == Lamports(before, a.taker)
    requires after.lamports == Sweep(Sweep(loaded.lamports, a.vault, a.maker), a.escrow, a.taker)
    ensures Lamports(after, a.maker) == Lamports(before, a.maker) + Lamports(before, a.vault)
    ensures Lamports(after, a.taker) + paid == Lamports(before, a.taker) + Lamports(before, a.escrow)
    ensures a.vault !in after.lamports && a.escrow !in after.lamports
  {
    var l1 := Sweep(loaded.lamports, a.vault, a.maker);
    SweepConserves(loaded.lamports, a.vault, a.maker);
    SweepConserves(l1, a.escrow, a.taker);
    assert Lamports(loaded, a.maker) == Lamports(before, a.maker);
    assert Lamports(loaded, a.vault) == Lamports(before, a.vault);
    assert Lamports(loaded, a.escrow) == Lamports(before, a.escrow);
  }

  /**
   * The token accounts after a take between distinct parties and mints, as
   * the payment followed by the release on the validated state.
   */
  lemma TakeTokens(s: State, a: TakeAccounts, signers: set<Address>, rent: nat)
    requires Take(s, a, signers, rent).Ok?
    requires a.maker != a.taker
    ensures LoadAccounts(s, a, signers, rent).Ok?
    ensures var l := LoadAccounts(s, a, signers, rent).value;
            var t0 := l.state.tokens;
            var ask := l.escrow.amount as nat;
            && a.takerAtaB in t0 && a.makerAtaB in t0 && t0[a.takerAtaB].amount >= ask
            && a.takerAtaA in PayMaker(t0, a, ask)
            && Take(s, a, signers, rent).value.tokens == ReleaseVault(PayMaker(t0, a, ask), a, l.vaultAmount)
  {
    TakeStages(s, a, signers, rent);
    LoadAccountsChecks(s, a, signers, rent);
    var l := LoadAccounts(s, a, signers, rent).value;
    var e := l.escrow;
    AssociatedTokenAddressInjective(a.maker, a.mintB, a.taker, a.mintB);
    AssociatedTokenAddressInjective(a.escrow, a.mintA, a.taker, a.mintA);
    TransferToMakerEffect(l.state, a, signers, e);
    var s1 := TransferToMaker(l.state, a, signers, e).value;
    ReleaseVaultEffect(s1, a, signers, e, l.vaultAmount);
  }

  /**
   * A successful take pays the maker exactly the asked amount of mint B out
   * of the taker's account, gives the taker the vault's whole loaded balance
   * of mint A, deletes the vault, and leaves every other token account as
   * it was.
   */
  lemma TakeSettles(s: State, a: TakeAccounts, signers: set<Address>, rent: nat)
    requires Take(s, a, signers, rent).Ok?
    requires a.maker != a.taker && a.mintA != a.mintB
    ensures a.escrow in s.escrows && a.vault in s.tokens && a.takerAtaB in s.tokens
    ensures var s' := Take(s, a, signers, rent).value;
            var ask := s.escrows[a.escrow].amount as nat;
            var deposit := s.tokens[a.vault].amount;
            && a.makerAtaB in s'.tokens && a.takerAtaB in s'.tokens && a.takerAtaA in s'.tokens
            && Held(s'.tokens, a.mintB, a.makerAtaB) == Held(s.tokens, a.mintB, a.makerAtaB) + ask
            && s'.tokens[a.takerAtaB].amount + ask == s.tokens[a.takerAtaB].amount
            && Held(s'.tokens, a.mintA, a.takerAtaA) == Held(s.tokens, a.mintA, a.takerAtaA) + deposit
            && a.vault !in s'.tokens
            && s'.tokens.Keys == s.tokens.Keys - {a.vault} + {a.makerAtaB, a.takerAtaA}
            && (forall k :: k in s.tokens && k != a.vault && k != a.makerAtaB && k != a.takerAtaB && k != a.takerAtaA
                  ==> s'.tokens[k] == s.tokens[k])
  {
    TakeTokens(s, a, signers, rent);
    LoadAccountsChecks(s, a, signers, rent);
    LoadAccountsTokens(s, a, signers, rent);
    var l := LoadAccounts(s, a, signers, rent).value;
    var e := l.escrow;
    TakeAccountsDistinct(a);
    SettlementOnMaps(a, s.tokens, l.state.tokens, e.amount as nat, l.vaultAmount);
  }

  /**
   * Whatever the parties and mints, a take deletes the vault and leaves
   * every token account other than the vault and the three counterpart
   * accounts as it was.
   */
  lemma TakeFrame(s: State, a: TakeAccounts, signers: set<Address>, rent: nat)
    requires Take(s, a, signers, rent).Ok?
    ensures var s' := Take(s, a, signers, rent).value;
            && a.vault !in s'.tokens
            && (forall k :: k in s.tokens && k != a.vault && k != a.makerAtaB && k != a.takerAtaB && k != a.takerAtaA
                  ==> k in s'.tokens && s'.tokens[k] == s.tokens[k])
  {
    TakeStages(s, a, signers, rent);
    LoadAccountsTokens(s, a, signers, rent);
    var l := LoadAccounts(s, a, signers, rent).value;
    var e := l.escrow;
    TransferCheckedMoves(l.state, a.takerAtaB, a.mintB, a.makerAtaB, a.taker, e.amount as nat, signers);
    var s1 := TransferToMaker(l.state, a, signers, e).value;
    var pda := VaultSigners(a, e, signers);
    TransferCheckedMoves(s1, a.vault, a.mintA, a.takerAtaA, a.escrow, l.vaultAmount, pda);
    var s2 := TransferChecked(s1, a.vault, a.mintA, a.takerAtaA, a.escrow, l.vaultAmount, pda).value;
    CloseAccountSweeps(s2, a.vault, a.maker, a.escrow, pda);
  }

  /**
   * The lamports after a take, as the two sweeps (vault to maker, record
   * to taker) applied to the validated state.
   */
  lemma TakeLamports(s: State, a: TakeAccounts, signers: set<Address>, rent: nat)
    requires Take(s, a, signers, rent).Ok?
    ensures LoadAccounts(s, a, signers, rent).Ok?
    ensures Take(s, a, signers, rent).value.lamports
         == Sweep(Sweep(LoadAccounts(s, a, signers, rent).value.state.lamports, a.vault, a.maker), a.escrow, a.taker)
  {
    TakeStages(s, a, signers, rent);
    var l := LoadAccounts(s, a, signers, rent).value;
    var e := l.escrow;
    TransferCheckedMoves(l.state, a.takerAtaB, a.mintB, a.makerAtaB, a.taker, e.amount as nat, signers);
    var s1 := TransferToMaker(l.state, a, signers, e).value;
    var pda := VaultSigners(a, e, signers);
    TransferCheckedMoves(s1, a.vault, a.mintA, a.takerAtaA, a.escrow, l.vaultAmount, pda);
  }

  /** A take deletes exactly the escrow record it settles and leaves the mints alone. */
  lemma TakeClosesRecord(s: State, a: TakeAccounts, signers: set<Address>, rent: nat)
    requires Take(s, a, signers, rent).Ok?
    ensures a.escrow in s.escrows
    ensures var s' := Take(s, a, signers, rent).value;
            && a.escrow !in s'.escrows
            && s'.escrows == s.escrows - {a.escrow} && s'.mints == s.mints
  {
    TakeStages(s, a, signers, rent);
    LoadAccountsChecks(s, a, signers, rent);
    LoadAccountsTokens(s, a, signers, rent);
    var l := LoadAccounts(s, a, signers, rent).value;
    var s1 := TransferToMaker(l.state, a, signers, l.escrow).value;
    TransferCheckedMoves(l.state, a.takerAtaB, a.mintB, a.makerAtaB, a.taker, l.escrow.amount as nat, signers);
    var pda := VaultSigners(a, l.escrow, signers);
    TransferCheckedMoves(s1, a.vault, a.mintA, a.takerAtaA, a.escrow, l.vaultAmount, pda);
    var s2 := TransferChecked(s1, a.vault, a.mintA, a.takerAtaA, a.escrow, l.vaultAmount, pda).value;
    CloseAccountSweeps(s2, a.vault, a.maker, a.escrow, pda);
  }

  /**
   * Tokens only move: a take preserves the supply of every mint and the
   * total of all lamports, and keeps every balance within a `u64`.
   */
  lemma TakeConserves(s: State, a: TakeAccounts, signers: set<Address>, rent: nat)
    requires Take(s, a, signers, rent).Ok?
    ensures forall m :: Supply(Take(s, a, signers, rent).value.tokens, m) == Supply(s.tokens, m)
    ensures TotalLamports(Take(s, a, signers, rent).value) == TotalLamports(s)
    ensures Valid(s) ==> Valid(Take(s, a, signers, rent).value)
  {
    TakeStages(s, a, signers, rent);
    LoadAccountsConserves(s, a, signers, rent);
    var l := LoadAccounts(s, a, signers, rent).value;
    TransferCheckedConserves(l.state, a.takerAtaB, a.mintB, a.makerAtaB, a.taker, l.escrow.amount as nat, signers);
    var s1 := TransferToMaker(l.state, a, signers, l.escrow).value;
    ReleaseVaultConserves(s1, a, signers, l.escrow, l.vaultAmount);
    var s2 := TransferToTakerAndCloseVault(s1, a, signers, l.escrow, l.vaultAmount).value;
    SweepConserves(s2.lamports, a.escrow, a.taker);
  }

  /**
   * The vault's lamports go to the maker and the record's to the taker, who
   * pays the rent of each counterpart account it had to create; afterwards
   * neither the vault nor the record holds any lamports.
   */
  lemma TakeMovesRent(s: State, a: TakeAccounts, signers: set<Address>, rent: nat)
    requires Take(s, a, signers, rent).Ok?
    requires a.maker != a.taker && IsKey(a.maker) && IsKey(a.taker)
    ensures var s' := Take(s, a, signers, rent).value;
            && Lamports(s', a.maker) == Lamports(s, a.maker) + Lamports(s, a.vault)
            && Lamports(s', a.taker) + RentPaid(s, a, rent) == Lamports(s, a.taker) + Lamports(s, a.escrow)
            && a.vault !in s'.lamports && a.escrow !in s'.lamports
  {
    TakeLamports(s, a, signers, rent);
    LoadAccountsChecks(s, a, signers, rent);
    LoadAccountsLamports(s, a, signers, rent);
    var l := LoadAccounts(s, a, signers, rent).value;
    var e := l.escrow;
    EscrowAddressIsNoTokenAccount(a.maker, e.seed, e.bump, a.taker, a.mintA);
    EscrowAddressIsNoTokenAccount(a.maker, e.seed, e.bump, a.maker, a.mintB);
    EscrowAddressIsNoTokenAccount(a.maker, e.seed, e.bump, a.escrow, a.mintA);
    AssociatedTokenAddressInjective(a.escrow, a.mintA, a.maker, a.mintB);
    AssociatedTokenAddressInjective(a.escrow, a.mintA, a.taker, a.mintA);
    SettlementOnLamports(a, s, l.state, Take(s, a, signers, rent).value, RentPaid(s, a, rent));
  }

  /**
   * A take closes the record, so no later take of the same escrow address,
   * whatever accounts and signers it names, can succeed.
   */
  lemma TakeOnlyOnce(s: State, a: TakeAccounts, signers: set<Address>, rent: nat,
                     a': TakeAccounts, signers': set<Address>, rent': nat)
    requires Take(s, a, signers, rent).Ok?
    requires a'.escrow == a.escrow
    ensures Take(Take(s, a, signers, rent).value, a', signers', rent').Err?
  {
    TakeClosesRecord(s, a, signers, rent);
  }
}
