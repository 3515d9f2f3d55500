/**
 * The escrow program run against a mutable cluster: the ledger is the
 * fields of a `Cluster`, and each instruction and each of its steps is a
 * method that updates those fields in place, in the order the source
 * performs them. Every method is proved to do what the matching function
 * of `TokenProgram`, `TakeInstruction` or `MakeInstruction` states, and an
 * instruction that fails leaves the cluster exactly as it found it (the
 * runtime discards the changes of a failed transaction).
 */
module EscrowProgram {
  import opened LittleEndian
  import opened Addresses
  import opened Totals
  import opened Chain
  import TokenProgram
  import TakeInstruction
  import MakeInstruction

  /** Whether an operation succeeded, and with which error it failed. */
  function OutcomeOf<T>(r: Result<T>): (o: Outcome)
    ensures o.Pass? <==> r.Ok?
    ensures o.Fail? ==> o.error == r.error
  {
    if r.Ok? then Pass else Fail(r.error)
  }

  class Cluster {
    var mints: set<Address>
    var tokens: map<Address, TokenAccount>
    var escrows: map<Address, Escrow>
    var lamports: map<Address, nat>

    /** The cluster's current contents as a value. */
    function Snapshot(): State
      reads this
    {
      State(mints, tokens, escrows, lamports)
    }

    constructor (s: State)
      ensures Snapshot() == s
    {
      mints, tokens, escrows, lamports := s.mints, s.tokens, s.escrows, s.lamports;
    }

    /** Put back a saved state: the runtime's roll-back of a failed instruction. */
    method Restore(s: State)
      modifies this
      ensures Snapshot() == s
    {
      mints, tokens, escrows, lamports := s.mints, s.tokens, s.escrows, s.lamports;
    }

    /** SPL `transfer_checked`, checking everything before it writes either account. */
    method TransferChecked(source: Address, mint: Address, destination: Address,
                           authority: Address, amount: nat, signers: set<Address>) returns (r: Outcome)
      modifies this
      ensures var f := TokenProgram.TransferChecked(old(Snapshot()), source, mint, destination, authority, amount, signers);
              && r == OutcomeOf(f)
              && Snapshot() == (if f.Ok? then f.value else old(Snapshot()))
    {
      if source !in tokens || destination !in tokens {
        return Fail(UninitializedAccount);
      }
      var src, dst := tokens[source], tokens[destination];
      if src.amount < amount {
        return Fail(InsufficientFunds);
      }
      if src.mint != dst.mint {
        return Fail(MintMismatch);
      }
      if mint != src.mint {
        return Fail(MintMismatch);
      }
      if authority != src.owner {
        return Fail(OwnerMismatch);
      }
      if authority !in signers {
        return Fail(MissingRequiredSignature);
      }
      if source == destination {
        return Pass;
      }
      if dst.amount + amount > U64_MAX {
        return Fail(Overflow);
      }
      tokens := tokens[source := src.(amount := src.amount - amount)];
      tokens := tokens[destination := dst.(amount := dst.amount + amount)];
      return Pass;
    }

    /** SPL `close_account`: delete the empty account and hand its lamports to `destination`. */
    method CloseAccount(account: Address, destination: Address, authority: Address,
                        signers: set<Address>) returns (r: Outcome)
      modifies this
      ensures var f := TokenProgram.CloseAccount(old(Snapshot()), account, destination, authority, signers);
              && r == OutcomeOf(f)
              && Snapshot() == (if f.Ok? then f.value else old(Snapshot()))
    {
      if account == destination {
        return Fail(InvalidAccountData);
      }
      if account !in tokens {
        return Fail(UninitializedAccount);
      }
      if tokens[account].amount != 0 {
        return Fail(NonNativeHasBalance);
      }
      if authority != tokens[account].owner {
        return Fail(OwnerMismatch);
      }
      if authority !in signers {
        return Fail(MissingRequiredSignature);
      }
      var held := Get(lamports, account);
      tokens := tokens - {account};
      lamports := lamports - {account};
      lamports := lamports[destination := Get(lamports, destination) + held];
      return Pass;
    }

    /** The associated token program's `create`, with `payer` funding the rent. */
    method CreateAssociatedTokenAccount(payer: Address, wallet: Address, mint: Address, rent: nat)
      returns (r: Outcome)
      modifies this
      ensures var f := TokenProgram.CreateAssociatedTokenAccount(old(Snapshot()), payer, wallet, mint, rent);
              && r == OutcomeOf(f)
              && Snapshot() == (if f.Ok? then f.value else old(Snapshot()))
    {
      var address := AssociatedTokenAddress(wallet, mint);
      if address in tokens || address in escrows {
        return Fail(AccountInUse);
      }
      if mint !in mints {
        return Fail(InvalidMint);
      }
      if Get(lamports, payer) < rent {
        return Fail(InsufficientLamports);
      }
      tokens := tokens[address := TokenAccount(mint, wallet, 0)];
      lamports := lamports[payer := Get(lamports, payer) - rent];
      lamports := lamports[address := Get(lamports, address) + rent];
      return Pass;
    }

    /** `init_if_needed` with the associated-token constraints. */
    method InitIfNeeded(payer: Address, address: Address, wallet: Address, mint: Address, rent: nat)
      returns (r: Outcome)
      modifies this
      ensures var f := TakeInstruction.InitIfNeeded(old(Snapshot()), payer, address, wallet, mint, rent);
              && r == OutcomeOf(f)
              && Snapshot() == (if f.Ok? then f.value else old(Snapshot()))
    {
      if address in tokens {
        var existing := TakeInstruction.CheckAssociated(Snapshot(), address, wallet, mint);
        if existing.Err? {
          return Fail(existing.error);
        }
        return Pass;
      }
      if address != AssociatedTokenAddress(wallet, mint) {
        return Fail(ConstraintAssociated);
      }
      r := CreateAssociatedTokenAccount(payer, wallet, mint, rent);
    }

    /**
     * Anchor's validation of the `Take` accounts: load the accounts that
     * must exist, create the two `init_if_needed` accounts, then check the
     * remaining constraints on the accounts as loaded; on success it hands
     * back the escrow record and the vault balance as they were
     * deserialized.
     */
    method ValidateTake(a: TakeInstruction.TakeAccounts, signers: set<Address>, rent: nat)
      returns (r: Outcome, e: Escrow, vaultAmount: nat)
      modifies this
      ensures var f := TakeInstruction.LoadAccounts(old(Snapshot()), a, signers, rent);
              && r == OutcomeOf(f)
              && Snapshot() == (if f.Ok? then f.value.state else old(Snapshot()))
              && (f.Ok? ==> e == f.value.escrow && vaultAmount == f.value.vaultAmount)
    {
      e, vaultAmount := Escrow(0, a.maker, a.mintA, a.mintB, 0, 0), 0;
      if a.taker !in signers {
        return Fail(MissingSigner), e, vaultAmount;
      }
      if a.mintA !in mints || a.mintB !in mints {
        return Fail(InvalidMint), e, vaultAmount;
      }
      if a.escrow !in escrows || a.vault !in tokens || a.takerAtaB !in tokens {
        return Fail(AccountNotInitialized), e, vaultAmount;
      }
      var saved := Snapshot();
      var record := escrows[a.escrow];
      r := InitIfNeeded(a.taker, a.makerAtaB, a.maker, a.mintB, rent);
      if r.Fail? {
        return r, e, vaultAmount;
      }
      r := InitIfNeeded(a.taker, a.takerAtaA, a.taker, a.mintA, rent);
      if r.Fail? {
        Restore(saved);
        return r, e, vaultAmount;
      }
      if record.maker != a.maker || record.mintA != a.mintA || record.mintB != a.mintB {
        Restore(saved);
        return Fail(ConstraintHasOne), e, vaultAmount;
      }
      if a.escrow != EscrowAddress(a.maker, record.seed, record.bump) {
        Restore(saved);
        return Fail(ConstraintSeeds), e, vaultAmount;
      }
      if a.escrow == a.taker {
        Restore(saved);
        return Fail(ConstraintClose), e, vaultAmount;
      }
      var vault := TakeInstruction.CheckAssociated(saved, a.vault, a.escrow, a.mintA);
      if vault.Err? {
        Restore(saved);
        return Fail(vault.error), e, vaultAmount;
      }
      var takerB := TakeInstruction.CheckAssociated(saved, a.takerAtaB, a.taker, a.mintB);
      if takerB.Err? {
        Restore(saved);
        return Fail(takerB.error), e, vaultAmount;
      }
      e, vaultAmount := record, vault.value.amount;
    }

    /** `transfer_to_maker`: the taker pays the record's ask of mint B to the maker. */
    method TransferToMaker(a: TakeInstruction.TakeAccounts, signers: set<Address>, e: Escrow)
      returns (r: Outcome)
      modifies this
      ensures var f := TakeInstruction.TransferToMaker(old(Snapshot()), a, signers, e);
              && r == OutcomeOf(f)
              && Snapshot() == (if f.Ok? then f.value else old(Snapshot()))
    {
      r := TransferChecked(a.takerAtaB, a.mintB, a.makerAtaB, a.taker, e.amount as nat, signers);
    }

    /**
     * `transfer_to_taker_and_close_vault`: signing with the escrow's seeds,
     * send the loaded vault balance to the taker, then close the vault into
     * the maker.
     */
    method TransferToTakerAndCloseVault(a: TakeInstruction.TakeAccounts, signers: set<Address>,
                                        e: Escrow, vaultAmount: nat) returns (r: Outcome)
      modifies this
      ensures var f := TakeInstruction.TransferToTakerAndCloseVault(old(Snapshot()), a, signers, e, vaultAmount);
              && r == OutcomeOf(f)
              && Snapshot() == (if f.Ok? then f.value else old(Snapshot()))
    {
      var saved := Snapshot();
      var pdaSigners := TakeInstruction.VaultSigners(a, e, signers);
      r := TransferChecked(a.vault, a.mintA, a.takerAtaA, a.escrow, vaultAmount, pdaSigners);
      if r.Fail? {
        return;
      }
      r := CloseAccount(a.vault, a.maker, a.escrow, pdaSigners);
      if r.Fail? {
        Restore(saved);
      }
    }

    /** `close = taker`: delete the record and hand its lamports to the taker. */
    method CloseEscrow(a: TakeInstruction.TakeAccounts)
      modifies this
      ensures Snapshot() == TakeInstruction.CloseEscrow(old(Snapshot()), a)
    {
      var held := Get(lamports, a.escrow);
      escrows := escrows - {a.escrow};
      lamports := lamports - {a.escrow};
      lamports := lamports[a.taker := Get(lamports, a.taker) + held];
    }

    /**
     * The `take` instruction: validate, pay the maker, release and close the
     * vault, close the record. Any failure rolls the cluster back; success
     * conserves every mint's supply and all lamports.
     */
    method Take(a: TakeInstruction.TakeAccounts, signers: set<Address>, rent: nat) returns (r: Outcome)
      modifies this
      ensures var f := TakeInstruction.Take(old(Snapshot()), a, signers, rent);
              && r == OutcomeOf(f)
              && Snapshot() == (if f.Ok? then f.value else old(Snapshot()))
      ensures forall m :: Supply(tokens, m) == Supply(old(tokens), m)
      ensures Sum(lamports) == Sum(old(lamports))
      ensures Valid(old(Snapshot())) ==> Valid(Snapshot())
    {
      var saved := Snapshot();
      var e, vaultAmount;
      r, e, vaultAmount := ValidateTake(a, signers, rent);
      if r.Fail? {
        return;
      }
      r := TransferToMaker(a, signers, e);
      if r.Fail? {
        Restore(saved);
        return;
      }
      r := TransferToTakerAndCloseVault(a, signers, e, vaultAmount);
      if r.Fail? {
        Restore(saved);
        return;
      }
      CloseEscrow(a);
      TakeInstruction.TakeConserves(saved, a, signers, rent);
    }

    /** `init_escrow`: write the offer at the escrow's derived address. */
    method InitEscrow(m: MakeInstruction.MakeAccounts, seed: u64, amountB: u64, bump: byte)
      returns (r: Outcome)
      modifies this
      ensures var f := MakeInstruction.InitEscrow(old(Snapshot()), m, seed, amountB, bump);
              && r == OutcomeOf(f)
              && Snapshot() == (if f.Ok? then f.value else old(Snapshot()))
    {
      var address := EscrowAddress(m.maker, seed, bump);
      if address in escrows || address in tokens {
        return Fail(AccountInUse);
      }
      escrows := escrows[address := MakeInstruction.Offer(m, seed, amountB, bump)];
      return Pass;
    }

    /** `deposit`: move `amount_a` of mint A from the maker into the vault. */
    method Deposit(m: MakeInstruction.MakeAccounts, amountA: u64, signers: set<Address>) returns (r: Outcome)
      modifies this
      ensures var f := MakeInstruction.Deposit(old(Snapshot()), m, amountA, signers);
              && r == OutcomeOf(f)
              && Snapshot() == (if f.Ok? then f.value else old(Snapshot()))
    {
      r := TransferChecked(m.makerAtaA, m.mintA, m.vault, m.maker, amountA as nat, signers);
    }

    /** The `make` instruction: record the offer, then deposit; any failure rolls back. */
    method Make(m: MakeInstruction.MakeAccounts, seed: u64, amountA: u64, amountB: u64, bump: byte,
                signers: set<Address>) returns (r: Outcome)
      modifies this
      ensures var f := MakeInstruction.Make(old(Snapshot()), m, seed, amountA, amountB, bump, signers);
              && r == OutcomeOf(f)
              && Snapshot() == (if f.Ok? then f.value else old(Snapshot()))
    {
      var saved := Snapshot();
      r := InitEscrow(m, seed, amountB, bump);
      if r.Fail? {
        return;
      }
      r := Deposit(m, amountA, signers);
      if r.Fail? {
        Restore(saved);
      }
    }
  }

  /**
   * An offer made into an empty vault and then taken delivers the deposit
   * to the taker and the ask to the maker, and leaves no record behind.
   */
  lemma MakeThenTake(s: State, m: MakeInstruction.MakeAccounts, seed: u64, amountA: u64, amountB: u64,
                     bump: byte, makeSigners: set<Address>,
                     a: TakeInstruction.TakeAccounts, takeSigners: set<Address>, rent: nat)
    requires MakeInstruction.Make(s, m, seed, amountA, amountB, bump, makeSigners).Ok?
    requires m.makerAtaA != m.vault && m.vault in s.tokens && s.tokens[m.vault].amount == 0
    requires a.escrow == EscrowAddress(m.maker, seed, bump) && a.vault == m.vault
    requires TakeInstruction.Take(MakeInstruction.Make(s, m, seed, amountA, amountB, bump, makeSigners).value,
                                  a, takeSigners, rent).Ok?
    requires a.maker != a.taker && a.mintA != a.mintB
    ensures var s1 := MakeInstruction.Make(s, m, seed, amountA, amountB, bump, makeSigners).value;
            var s2 := TakeInstruction.Take(s1, a, takeSigners, rent).value;
            && Held(s2.tokens, a.mintA, a.takerAtaA) == Held(s1.tokens, a.mintA, a.takerAtaA) + amountA as nat
            && Held(s2.tokens, a.mintB, a.makerAtaB) == Held(s1.tokens, a.mintB, a.makerAtaB) + amountB as nat
            && a.vault !in s2.tokens && a.escrow !in s2.escrows
  {
    var s1 := MakeInstruction.Make(s, m, seed, amountA, amountB, bump, makeSigners).value;
    MakeInstruction.MakeRecordsAsk(s, m, seed, amountA, amountB, bump, makeSigners);
    MakeInstruction.MakeDeposits(s, m, seed, amountA, amountB, bump, makeSigners);
    TakeInstruction.TakeSettles(s1, a, takeSigners, rent);
    TakeInstruction.TakeClosesRecord(s1, a, takeSigners, rent);
  }
}
