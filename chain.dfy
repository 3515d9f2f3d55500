/**
 * The part of the cluster state that the escrow instructions read and
 * write: mint accounts, SPL token accounts, escrow records, and the
 * lamports held by every account.
 */
module Chain {
  import opened LittleEndian
  import opened Addresses
  import opened Totals

  /** The errors an instruction can end with (Anchor constraint errors and SPL token errors). */
  datatype Error =
    | MissingSigner               // a `Signer` account did not sign
    | InvalidMint                 // a mint account is not a mint of the token program
    | AccountNotInitialized       // an account that must exist does not
    | ConstraintHasOne            // `has_one = …` failed
    | ConstraintSeeds             // `seeds = …, bump = …` failed
    | ConstraintClose             // `close = …` names the closed account itself
    | ConstraintAssociated        // not the associated token account of the named wallet and mint
    | ConstraintTokenMint         // an existing token account holds a different mint
    | ConstraintTokenOwner        // an existing token account has a different authority
    | AccountInUse                // an account to be created already exists
    | InsufficientLamports        // the payer cannot fund a new account
    | UninitializedAccount        // SPL: a token account passed to a token instruction does not exist
    | MintMismatch                // SPL: the accounts or the named mint disagree
    | InsufficientFunds           // SPL: the source holds fewer tokens than asked for
    | OwnerMismatch               // SPL: the authority is not the account's owner
    | MissingRequiredSignature    // SPL: the authority did not sign
    | Overflow                    // SPL: the destination balance would exceed `u64::MAX`
    | InvalidAccountData          // SPL: an account closed into itself
    | NonNativeHasBalance         // SPL: closing a token account that still holds tokens

  /** The outcome of an operation that produces a value; `?` in the source is `:-` here. */
  datatype Result<T> = Ok(value: T) | Err(error: Error) {
    predicate IsFailure() { Err? }
    function PropagateFailure<U>(): Result<U>
      requires Err?
    {
      Err(error)
    }
    function Extract(): T
      requires Ok?
    {
      value
    }
  }

  /** The outcome of an operation that only changes state. */
  datatype Outcome = Pass | Fail(error: Error)

  /** An SPL token account: which mint it holds, its authority, and its balance. */
  datatype TokenAccount = TokenAccount(mint: Address, owner: Address, amount: nat)

  /**
   * The escrow record, with the fields the take instruction reads: the seed
   * and bump of its address, its maker, both mints, and the amount of mint B
   * the maker asks for.
   */
  datatype Escrow = Escrow(seed: u64, maker: Address, mintA: Address, mintB: Address, amount: u64, bump: byte)

  datatype State = State(
    mints: set<Address>,
    tokens: map<Address, TokenAccount>,
    escrows: map<Address, Escrow>,
    lamports: map<Address, nat>)

  /** Every token balance fits in a `u64`. */
  ghost predicate Valid(s: State)
  {
    forall a :: a in s.tokens ==> s.tokens[a].amount <= U64_MAX
  }

  /** The lamports of an address; an account that does not exist holds none. */
  function Lamports(s: State, a: Address): nat
  {
    Get(s.lamports, a)
  }

  /** The balance of the token account at a, in mint, zero if there is none. */
  function Held(tokens: map<Address, TokenAccount>, mint: Address, a: Address): nat
  {
    if a in tokens && tokens[a].mint == mint then tokens[a].amount else 0
  }

  /** The balance of every token account of one mint. */
  function Balances(tokens: map<Address, TokenAccount>, mint: Address): map<Address, nat>
  {
    map a | a in tokens && tokens[a].mint == mint :: tokens[a].amount
  }

  /** All tokens of one mint held across all token accounts. */
  ghost function Supply(tokens: map<Address, TokenAccount>, mint: Address): nat
  {
    Sum(Balances(tokens, mint))
  }

  /** All lamports held across all accounts. */
  ghost function TotalLamports(s: State): nat
  {
    Sum(s.lamports)
  }

  /**
   * Replacing the account at a changes the supply of each mint by what a
   * held of it before and after.
   */
  lemma SupplyUpdate(tokens: map<Address, TokenAccount>, a: Address, t: TokenAccount, mint: Address)
    ensures Supply(tokens[a := t], mint) + Held(tokens, mint, a)
         == Supply(tokens, mint) + Held(tokens[a := t], mint, a)
  {
    var b, b' := Balances(tokens, mint), Balances(tokens[a := t], mint);
    if t.mint == mint {
      assert b' == b[a := t.amount];
      SumUpdate(b, a, t.amount);
    } else {
      assert b' == b - {a};
      SumRemove(b, a);
    }
  }

  /** Removing the account at a takes what it held off the supply. */
  lemma SupplyRemove(tokens: map<Address, TokenAccount>, a: Address, mint: Address)
    ensures Supply(tokens - {a}, mint) + Held(tokens, mint, a) == Supply(tokens, mint)
  {
    var b := Balances(tokens, mint);
    assert Balances(tokens - {a}, mint) == b - {a};
    SumRemove(b, a);
  }
}
