/**
 * The `make` instruction as lib.rs sequences it: `init_escrow(seed,
 * amount_b, bumps)` records the offer, and only if that succeeds does
 * `deposit(amount_a)` move the maker's mint-A tokens into the vault.
 *
 * The bodies of `init_escrow` and `deposit` are not part of this model
 * beyond what their call sites fix: the record is created at the escrow's
 * derived address (Anchor's `init`, which refuses an address in use) with
 * the seed, the bump and `amount_b` as its ask; the deposit is one SPL
 * `transfer_checked` of `amount_a` from the maker's mint-A account to the
 * vault, signed by the maker. No further checks are assumed.
 */
module MakeInstruction {
  import opened LittleEndian
  import opened Addresses
  import opened Chain
  import opened TokenProgram

  /** The accounts a `make` names: the maker, both mints, the maker's mint-A account and the vault. */
  datatype MakeAccounts = MakeAccounts(
    maker: Address,
    mintA: Address,
    mintB: Address,
    makerAtaA: Address,
    vault: Address)

  /** The record `init_escrow` writes: the mint-B ask is `amount_b`. */
  function Offer(m: MakeAccounts, seed: u64, amountB: u64, bump: byte): Escrow
  {
    Escrow(seed, m.maker, m.mintA, m.mintB, amountB, bump)
  }

  /** `init_escrow`: create the record at the escrow's derived address, which must be unused. */
  function InitEscrow(s: State, m: MakeAccounts, seed: u64, amountB: u64, bump: byte): Result<State>
  {
    var address := EscrowAddress(m.maker, seed, bump);
    if address in s.escrows || address in s.tokens then Err(AccountInUse)
    else Ok(s.(escrows := s.escrows[address := Offer(m, seed, amountB, bump)]))
  }

  /** `deposit`: the maker moves `amount_a` of mint A into the vault. */
  function Deposit(s: State, m: MakeAccounts, amountA: u64, signers: set<Address>): Result<State>
  {
    TransferChecked(s, m.makerAtaA, m.mintA, m.vault, m.maker, amountA as nat, signers)
  }

  /** The whole `make` instruction: record the offer, then deposit. */
  function Make(s: State, m: MakeAccounts, seed: u64, amountA: u64, amountB: u64, bump: byte,
                signers: set<Address>): Result<State>
  {
    var s1 :- InitEscrow(s, m, seed, amountB, bump);
    Deposit(s1, m, amountA, signers)
  }

  /**
   * A successful `make` stores exactly one new record, at the address its
   * maker, seed and bump derive, whose ask is `amount_b` (not the deposit).
   */
  lemma MakeRecordsAsk(s: State, m: MakeAccounts, seed: u64, amountA: u64, amountB: u64, bump: byte,
                       signers: set<Address>)
    requires Make(s, m, seed, amountA, amountB, bump, signers).Ok?
    ensures var address := EscrowAddress(m.maker, seed, bump);
            var r := Make(s, m, seed, amountA, amountB, bump, signers).value;
            && address !in s.escrows
            && r.escrows == s.escrows[address := Offer(m, seed, amountB, bump)]
            && r.escrows[address].amount == amountB
            && r.escrows[address].maker == m.maker
            && r.escrows[address].mintA == m.mintA && r.escrows[address].mintB == m.mintB
            && EscrowAddress(r.escrows[address].maker, r.escrows[address].seed, r.escrows[address].bump) == address
  {
    var s1 := InitEscrow(s, m, seed, amountB, bump).value;
    TransferCheckedMoves(s1, m.makerAtaA, m.mintA, m.vault, m.maker, amountA as nat, signers);
  }

  /**
   * A successful `make` into a separate vault account moves exactly
   * `amount_a` of mint A from the maker's account to the vault and leaves
   * every other token account as it was.
   */
  lemma MakeDeposits(s: State, m: MakeAccounts, seed: u64, amountA: u64, amountB: u64, bump: byte,
                     signers: set<Address>)
    requires Make(s, m, seed, amountA, amountB, bump, signers).Ok?
    requires m.makerAtaA != m.vault
    ensures m.makerAtaA in s.tokens && m.vault in s.tokens
    ensures var r := Make(s, m, seed, amountA, amountB, bump, signers).value;
            && r.tokens.Keys == s.tokens.Keys
            && r.tokens[m.vault].amount == s.tokens[m.vault].amount + amountA as nat
            && r.tokens[m.makerAtaA].amount + amountA as nat == s.tokens[m.makerAtaA].amount
            && r.tokens[m.vault].mint == m.mintA && r.tokens[m.makerAtaA].mint == m.mintA
            && r.tokens[m.vault].owner == s.tokens[m.vault].owner
            && (forall k :: k in s.tokens && k != m.makerAtaA && k != m.vault ==> r.tokens[k] == s.tokens[k])
            && r.lamports == s.lamports && r.mints == s.mints
  {
    var s1 := InitEscrow(s, m, seed, amountB, bump).value;
    TransferCheckedSucceeds(s1, m.makerAtaA, m.mintA, m.vault, m.maker, amountA as nat, signers);
    TransferCheckedMoves(s1, m.makerAtaA, m.mintA, m.vault, m.maker, amountA as nat, signers);
  }

  /**
   * The first `make` takes the escrow address: a second `make` by the same
   * maker with the same seed and bump fails with `AccountInUse`, whatever
   * mints, amounts and signers it names.
   */
  lemma MakeTwiceFails(s: State, m: MakeAccounts, seed: u64, amountA: u64, amountB: u64, bump: byte,
                       signers: set<Address>, m': MakeAccounts, amountA': u64, amountB': u64,
                       signers': set<Address>)
    requires Make(s, m, seed, amountA, amountB, bump, signers).Ok?
    requires m'.maker == m.maker
    ensures Make(Make(s, m, seed, amountA, amountB, bump, signers).value, m', seed, amountA', amountB', bump, signers')
         == Err(AccountInUse)
  {
    MakeRecordsAsk(s, m, seed, amountA, amountB, bump, signers);
  }

  /** `make` mints nothing, moves no lamports and keeps every balance within a `u64`. */
  lemma MakeConserves(s: State, m: MakeAccounts, seed: u64, amountA: u64, amountB: u64, bump: byte,
                      signers: set<Address>)
    requires Make(s, m, seed, amountA, amountB, bump, signers).Ok?
    ensures var r := Make(s, m, seed, amountA, amountB, bump, signers).value;
            && (forall mint :: Supply(r.tokens, mint) == Supply(s.tokens, mint))
            && TotalLamports(r) == TotalLamports(s)
            && (Valid(s) ==> Valid(r))
  {
    var s1 := InitEscrow(s, m, seed, amountB, bump).value;
    TransferCheckedConserves(s1, m.makerAtaA, m.mintA, m.vault, m.maker, amountA as nat, signers);
  }
}
