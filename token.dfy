/**
 * The token- and system-program operations the escrow program invokes,
 * stated as abstract operations on the cluster state with SPL Token's
 * semantics: `transfer_checked`, `close_account`, the associated token
 * program's `create`, and lamport movements.
 */
module TokenProgram {
  import opened LittleEndian
  import opened Addresses
  import opened Totals
  import opened Chain

  /** Move `amount` lamports from one account to another. */
  function Move(lam: map<Address, nat>, from: Address, to: Address, amount: nat): map<Address, nat>
    requires Get(lam, from) >= amount
  {
    var l := lam[from := Get(lam, from) - amount];
    l[to := Get(l, to) + amount]
  }

  /** Delete the account `from` and give all its lamports to `to`. */
  function Sweep(lam: map<Address, nat>, from: Address, to: Address): map<Address, nat>
  {
    var l := lam - {from};
    l[to := Get(l, to) + Get(lam, from)]
  }

  lemma MoveConserves(lam: map<Address, nat>, from: Address, to: Address, amount: nat)
    requires Get(lam, from) >= amount
    ensures Sum(Move(lam, from, to, amount)) == Sum(lam)
    ensures from != to ==>
              Get(Move(lam, from, to, amount), from) == Get(lam, from) - amount &&
              Get(Move(lam, from, to, amount), to) == Get(lam, to) + amount
    ensures forall x :: x != from && x != to ==> Get(Move(lam, from, to, amount), x) == Get(lam, x)
  {
    var l := lam[from := Get(lam, from) - amount];
    SumUpdate(lam, from, Get(lam, from) - amount);
    SumUpdate(l, to, Get(l, to) + amount);
  }

  lemma SweepConserves(lam: map<Address, nat>, from: Address, to: Address)
    ensures Sum(Sweep(lam, from, to)) == Sum(lam)
    ensures from != to ==>
              from !in Sweep(lam, from, to) &&
              Get(Sweep(lam, from, to), to) == Get(lam, to) + Get(lam, from)
    ensures forall x :: x != from && x != to ==> Get(Sweep(lam, from, to), x) == Get(lam, x)
  {
    var l := lam - {from};
    SumRemove(lam, from);
    SumUpdate(l, to, Get(l, to) + Get(lam, from));
  }

  /**
   * SPL `transfer_checked`: move `amount` of `mint` from `source` to
   * `destination`, authorised by the source's owner, who must sign.
   * A transfer of an account to itself only checks and changes nothing.
   * (The `decimals` argument is reduced to the mint check.)
   */
  function TransferChecked(s: State, source: Address, mint: Address, destination: Address,
                           authority: Address, amount: nat, signers: set<Address>): Result<State>
  {
    if source !in s.tokens || destination !in s.tokens then Err(UninitializedAccount)
    else
      var src, dst := s.tokens[source], s.tokens[destination];
      if src.amount < amount then Err(InsufficientFunds)
      else if src.mint != dst.mint then Err(MintMismatch)
      else if mint != src.mint then Err(MintMismatch)
      else if authority != src.owner then Err(OwnerMismatch)
      else if authority !in signers then Err(MissingRequiredSignature)
      else if source == destination then Ok(s)
      else if dst.amount + amount > U64_MAX then Err(Overflow)
      else
        var t := s.tokens[source := src.(amount := src.amount - amount)];
        Ok(s.(tokens := t[destination := dst.(amount := dst.amount + amount)]))
  }

  /**
   * SPL `close_account`: delete an empty token account, authorised by its
   * owner, and give its lamports to `destination`.
   */
  function CloseAccount(s: State, account: Address, destination: Address,
                        authority: Address, signers: set<Address>): Result<State>
  {
    if account == destination then Err(InvalidAccountData)
    else if account !in s.tokens then Err(UninitializedAccount)
    else if s.tokens[account].amount != 0 then Err(NonNativeHasBalance)
    else if authority != s.tokens[account].owner then Err(OwnerMismatch)
    else if authority !in signers then Err(MissingRequiredSignature)
    else Ok(s.(tokens := s.tokens - {account}, lamports := Sweep(s.lamports, account, destination)))
  }

  /**
   * The associated token program's `create`: a new, empty token account of
   * `mint` for `wallet` at its associated address, whose rent `payer` funds.
   */
  function CreateAssociatedTokenAccount(s: State, payer: Address, wallet: Address,
                                        mint: Address, rent: nat): Result<State>
  {
    var address := AssociatedTokenAddress(wallet, mint);
    if address in s.tokens || address in s.escrows then Err(AccountInUse)
    else if mint !in s.mints then Err(InvalidMint)
    else if Lamports(s, payer) < rent then Err(InsufficientLamports)
    else Ok(s.(tokens := s.tokens[address := TokenAccount(mint, wallet, 0)],
               lamports := Move(s.lamports, payer, address, rent)))
  }

  /**
   * A transfer succeeds exactly when both accounts exist and hold the named
   * mint, the source holds enough, its owner signed, and the destination
   * does not overflow.
   */
  lemma TransferCheckedSucceeds(s: State, source: Address, mint: Address, destination: Address,
                                authority: Address, amount: nat, signers: set<Address>)
    ensures TransferChecked(s, source, mint, destination, authority, amount, signers).Ok?
        <==> && source in s.tokens && destination in s.tokens
             && s.tokens[source].mint == mint && s.tokens[destination].mint == mint
             && s.tokens[source].amount >= amount
             && s.tokens[source].owner == authority && authority in signers
             && (source == destination || s.tokens[destination].amount + amount <= U64_MAX)
  {
  }

  /**
   * A successful transfer between two accounts debits the source and
   * credits the destination by exactly `amount` and touches nothing else.
   */
  lemma TransferCheckedMoves(s: State, source: Address, mint: Address, destination: Address,
                             authority: Address, amount: nat, signers: set<Address>)
    requires TransferChecked(s, source, mint, destination, authority, amount, signers).Ok?
    ensures source in s.tokens && destination in s.tokens && s.tokens[source].amount >= amount
    ensures var r := TransferChecked(s, source, mint, destination, authority, amount, signers).value;
            && r.mints == s.mints && r.escrows == s.escrows && r.lamports == s.lamports
            && r.tokens.Keys == s.tokens.Keys
            && (source == destination ==> r == s)
            && (source != destination ==>
                  && r.tokens[source] == s.tokens[source].(amount := s.tokens[source].amount - amount)
                  && r.tokens[destination] == s.tokens[destination].(amount := s.tokens[destination].amount + amount))
            && (forall a :: a in s.tokens && a != source && a != destination ==> r.tokens[a] == s.tokens[a])
  {
  }

  /** A transfer leaves the supply of every mint as it was and every balance within a `u64`. */
  lemma TransferCheckedConserves(s: State, source: Address, mint: Address, destination: Address,
                                 authority: Address, amount: nat, signers: set<Address>)
    requires TransferChecked(s, source, mint, destination, authority, amount, signers).Ok?
    ensures var r := TransferChecked(s, source, mint, destination, authority, amount, signers).value;
            && r.lamports == s.lamports
            && (forall m :: Supply(r.tokens, m) == Supply(s.tokens, m))
            && (Valid(s) ==> Valid(r))
  {
    var r := TransferChecked(s, source, mint, destination, authority, amount, signers);
    if source != destination {
      var src, dst := s.tokens[source], s.tokens[destination];
      var t := s.tokens[source := src.(amount := src.amount - amount)];
      forall m ensures Supply(r.value.tokens, m) == Supply(s.tokens, m) {
        SupplyUpdate(s.tokens, source, src.(amount := src.amount - amount), m);
        SupplyUpdate(t, destination, dst.(amount := dst.amount + amount), m);
      }
    }
  }

  /**
   * Closing succeeds exactly when the account exists, is empty, is not its
   * own destination and its owner signed; the account is then gone and its
   * lamports are the destination's.
   */
  lemma CloseAccountSweeps(s: State, account: Address, destination: Address,
                           authority: Address, signers: set<Address>)
    ensures CloseAccount(s, account, destination, authority, signers).Ok?
        <==> && account != destination && account in s.tokens && s.tokens[account].amount == 0
             && s.tokens[account].owner == authority && authority in signers
    ensures var r := CloseAccount(s, account, destination, authority, signers);
            r.Ok? ==>
              && r.value.mints == s.mints && r.value.escrows == s.escrows
              && r.value.tokens == s.tokens - {account}
              && account !in r.value.lamports
              && Lamports(r.value, destination) == Lamports(s, destination) + Lamports(s, account)
              && (forall a :: a != account && a != destination ==> Lamports(r.value, a) == Lamports(s, a))
  {
    if CloseAccount(s, account, destination, authority, signers).Ok? {
      SweepConserves(s.lamports, account, destination);
    }
  }

  /** Closing loses no tokens (the account was empty) and no lamports. */
  lemma CloseAccountConserves(s: State, account: Address, destination: Address,
                              authority: Address, signers: set<Address>)
    requires CloseAccount(s, account, destination, authority, signers).Ok?
    ensures var r := CloseAccount(s, account, destination, authority, signers).value;
            && TotalLamports(r) == TotalLamports(s)
            && (forall m :: Supply(r.tokens, m) == Supply(s.tokens, m))
            && (Valid(s) ==> Valid(r))
  {
    var r := CloseAccount(s, account, destination, authority, signers);
    SweepConserves(s.lamports, account, destination);
    forall m ensures Supply(r.value.tokens, m) == Supply(s.tokens, m) {
      SupplyRemove(s.tokens, account, m);
    }
  }

  /**
   * Creating an associated account succeeds exactly when nothing lives at
   * its address, the mint exists and the payer can fund the rent; it adds
   * one empty account of the mint for the wallet and moves exactly `rent`
   * lamports from the payer to it.
   */
  lemma CreateAssociatedAdds(s: State, payer: Address, wallet: Address, mint: Address, rent: nat)
    ensures CreateAssociatedTokenAccount(s, payer, wallet, mint, rent).Ok?
        <==> && AssociatedTokenAddress(wallet, mint) !in s.tokens
             && AssociatedTokenAddress(wallet, mint) !in s.escrows
             && mint in s.mints && Lamports(s, payer) >= rent
    ensures var address := AssociatedTokenAddress(wallet, mint);
            var r := CreateAssociatedTokenAccount(s, payer, wallet, mint, rent);
            r.Ok? ==>
              && r.value.mints == s.mints && r.value.escrows == s.escrows
              && r.value.tokens == s.tokens[address := TokenAccount(mint, wallet, 0)]
              && (payer != address ==>
                    && Lamports(r.value, address) == Lamports(s, address) + rent
                    && Lamports(r.value, payer) == Lamports(s, payer) - rent)
              && (forall a :: a != payer && a != address ==> Lamports(r.value, a) == Lamports(s, a))
  {
    var address := AssociatedTokenAddress(wallet, mint);
    if CreateAssociatedTokenAccount(s, payer, wallet, mint, rent).Ok? {
      MoveConserves(s.lamports, payer, address, rent);
    }
  }

  /** Creating an account mints nothing and loses no lamports. */
  lemma CreateAssociatedConserves(s: State, payer: Address, wallet: Address, mint: Address, rent: nat)
    requires CreateAssociatedTokenAccount(s, payer, wallet, mint, rent).Ok?
    ensures var r := CreateAssociatedTokenAccount(s, payer, wallet, mint, rent).value;
            && TotalLamports(r) == TotalLamports(s)
            && (forall m :: Supply(r.tokens, m) == Supply(s.tokens, m))
            && (Valid(s) ==> Valid(r))
  {
    var address := AssociatedTokenAddress(wallet, mint);
    var r := CreateAssociatedTokenAccount(s, payer, wallet, mint, rent);
    MoveConserves(s.lamports, payer, address, rent);
    forall m ensures Supply(r.value.tokens, m) == Supply(s.tokens, m) {
      SupplyUpdate(s.tokens, address, TokenAccount(mint, wallet, 0), m);
    }
  }
}
