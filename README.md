# Anchor escrow: the `take` instruction and the instruction sequencing

This project models the escrow program `anchor_escrow_q3_2025`, written in Anchor for Solana, and proves properties of the model. A maker locks an amount of mint A in a vault owned by an escrow account and asks for a fixed amount of mint B. A taker accepts the offer with `take`:

1. Anchor validates the `Take` accounts against the stored escrow record. It creates the maker's mint-B account and the taker's mint-A account if they are missing, and the taker pays for them.
2. `transfer_to_maker` moves the record's `amount` of mint B from the taker to the maker.
3. `transfer_to_taker_and_close_vault` signs with the escrow's seeds. It sends the vault's whole balance to the taker, then closes the vault into the maker.
4. On exit, `close = taker` deletes the escrow record and gives its lamports to the taker.

`lib.rs` chains these steps with `?`. `make` runs `init_escrow` and then `deposit`; `take` pays the maker and then releases the vault.

The model has three layers.

* **Ledger and services** (`chain.dfy`, `token.dfy`). The cluster state is a value. It holds the mints, the SPL token accounts, the escrow records and the lamports of every address. SPL Token's `transfer_checked` and `close_account`, and the associated token program's `create`, are functions from a state to `Ok(new state)` or `Err(error)`.
* **Instructions as functions** (`take.dfy`, `make.dfy`). They are written with `:-`, the counterpart of Rust's `?`. An `Err` carries no state, because the runtime discards every change of a failed instruction.
* **Instructions as in-place updates** (`program.dfy`). The class `EscrowProgram.Cluster` holds the ledger in mutable fields. Its methods run the same steps in the order Anchor and the handlers run them, updating the maps, and roll back with `Restore` on failure. Each method is proved equal to its function, so the lemmas about the functions hold for the class.

Addresses come from `addresses.dfy`. An address is a key, or a program-derived address (PDA) built from a program and a list of seeds. Derivation is a datatype constructor, so it is injective, and a derived address is never a key that could sign. The escrow's `u64` seed enters its address as eight little-endian bytes (`little_endian.dfy`). This encoding is proved lossless, so one (maker, seed, bump) names exactly one escrow address.

Token supplies and lamport totals use sums over finite maps (`totals.dfy`). With them the model states that `take` and `make` only move tokens and lamports.

Anchor validates the `Take` accounts in three phases before the handler runs. First it loads, in field order, every account that is not `init_if_needed`: the taker must have signed, and the mints, the record, the vault and the taker's mint-B account must exist. Then it runs the two `init_if_needed` fields, in field order. Last it checks the remaining constraints (`has_one`, `seeds`, `close`, `associated_token`) in field order, on the accounts as loaded. `TakeInstruction.LoadAccounts` follows these phases.

Anchor deserializes every account before the handler runs. The handler's `self.vault.amount` is therefore the balance at validation time. The model carries that value from validation to the release (`TakeInstruction.Loaded`).

## Model

| member | source | states |
|---|---|---|
| LittleEndian.FromLeToLe | programs/anchor-escrow-q3-2025/src/instructions/take.rs:28 | Decoding the n little-endian bytes of any x below 256^n gives back x. |
| LittleEndian.ToLeBytesRoundTrip | programs/anchor-escrow-q3-2025/src/instructions/take.rs:28 | `seed.to_le_bytes()` is eight bytes, and decoding them gives back the seed. |
| LittleEndian.ToLeBytesInjective | programs/anchor-escrow-q3-2025/src/lib.rs:15 | Two `u64` seeds have the same 8-byte encoding if and only if they are equal. |
| Addresses.EscrowAddressInjective | programs/anchor-escrow-q3-2025/src/instructions/take.rs:28-29 | Two (maker, seed, bump) triples derive the same escrow address if and only if they are equal. |
| Addresses.AssociatedTokenAddressInjective | programs/anchor-escrow-q3-2025/src/instructions/take.rs:32-61 | Two (wallet, mint) pairs have the same associated token address if and only if they are equal. |
| Addresses.EscrowAddressIsNoTokenAccount | programs/anchor-escrow-q3-2025/src/instructions/take.rs:87-92 | An escrow address is never an associated token account and never a key. |
| TokenProgram.MoveConserves | programs/anchor-escrow-q3-2025/src/instructions/take.rs:39-46 | Paying rent for a new account debits the payer and credits the account by exactly the rent; the lamport total is unchanged. |
| TokenProgram.SweepConserves | programs/anchor-escrow-q3-2025/src/instructions/take.rs:97-103 | Closing an account deletes its lamport entry and adds its lamports to the destination; the total is unchanged. |
| TokenProgram.TransferCheckedSucceeds | programs/anchor-escrow-q3-2025/src/instructions/take.rs:67-78 | A transfer succeeds if and only if both accounts exist and hold the named mint, the source holds enough, its owner signed, and the destination does not exceed `u64::MAX`. |
| TokenProgram.TransferCheckedMoves | programs/anchor-escrow-q3-2025/src/instructions/take.rs:67-78 | A successful transfer between two accounts debits the source and credits the destination by exactly the amount. It keeps the set of accounts and leaves every other account, the records and the lamports unchanged. A transfer from an account to itself changes nothing. |
| TokenProgram.TransferCheckedConserves | programs/anchor-escrow-q3-2025/src/instructions/take.rs:67-78 | A transfer preserves every mint's supply and keeps every balance within a `u64`. |
| TokenProgram.CloseAccountSweeps | programs/anchor-escrow-q3-2025/src/instructions/take.rs:97-103 | Closing succeeds if and only if the account exists, is empty, is not its own destination, and its authority signed. The account is then deleted and its lamports go to the destination. |
| TokenProgram.CloseAccountConserves | programs/anchor-escrow-q3-2025/src/instructions/take.rs:97-103 | Closing preserves every mint's supply and the lamport total. |
| TokenProgram.CreateAssociatedAdds | programs/anchor-escrow-q3-2025/src/instructions/take.rs:39-46 | Creation succeeds if and only if the address is unused, the mint exists and the payer can pay the rent. It adds exactly one empty account of the mint for the wallet, and the payer pays its rent. |
| TokenProgram.CreateAssociatedConserves | programs/anchor-escrow-q3-2025/src/instructions/take.rs:54-61 | Creation preserves every mint's supply and the lamport total. |
| TakeInstruction.InitIfNeededEffect | programs/anchor-escrow-q3-2025/src/instructions/take.rs:39-46 | `init_if_needed` succeeds only on the wallet's associated account for the mint. An existing account must hold that mint for that wallet and is left unchanged; a missing one is created empty, paid for by the taker. |
| TakeInstruction.InitIfNeededConserves | programs/anchor-escrow-q3-2025/src/instructions/take.rs:54-61 | `init_if_needed` preserves every mint's supply and the lamport total. |
| TakeInstruction.LoadAccountsChecks | programs/anchor-escrow-q3-2025/src/instructions/take.rs:8-65 | If validation passes, every constraint held: the taker signed, the mints exist, and the record names the given maker and mints. The record sits at the address derived from its seed and bump, and it is not its own close target (`close = taker`). The vault is the escrow's mint-A associated account. The taker's mint-B account exists and holds mint B for the taker. Each `init_if_needed` account is the right associated account, with the right mint and wallet if it already existed. |
| TakeInstruction.LoadAccountsTokens | programs/anchor-escrow-q3-2025/src/instructions/take.rs:39-61 | Validation only adds the two `init_if_needed` accounts, empty. Every existing token account, the mints and the records are unchanged. |
| TakeInstruction.LoadAccountsLamports | programs/anchor-escrow-q3-2025/src/instructions/take.rs:39-61 | Validation changes no lamports but those of the taker and the two `init_if_needed` accounts. Each of those accounts gains `rent` if it did not exist and nothing otherwise. The taker pays `rent` once for each distinct account created. |
| TakeInstruction.LoadAccountsConserves | programs/anchor-escrow-q3-2025/src/instructions/take.rs:39-61 | Validation preserves every mint's supply and the lamport total. |
| TakeInstruction.TakeChecksAccounts | programs/anchor-escrow-q3-2025/src/instructions/take.rs:22-38 | Take is rejected unless the record's maker, mint A and mint B equal the given accounts, the record is at its derived address, and the vault is the escrow's associated mint-A account. The taker's mint-B account must already exist and hold mint B for the taker. |
| TakeInstruction.VaultSignedOnlyByEscrowSeeds | programs/anchor-escrow-q3-2025/src/instructions/take.rs:87-92 | The vault's authority is the escrow address, and the only seeds that derive it are the maker, the record's seed and the record's bump. |
| TakeInstruction.TakeFailsWithoutFunds | programs/anchor-escrow-q3-2025/src/instructions/take.rs:67-78 | Once validation passes, if the taker's mint-B account holds less than the ask, take fails with `InsufficientFunds`. |
| TakeInstruction.TransferToMakerEffect | programs/anchor-escrow-q3-2025/src/instructions/take.rs:67-78 | The payment moves exactly the record's `amount` of mint B from the taker's account to the maker's and changes nothing else. When the two accounts are one (a self-take), the payment changes nothing. |
| TakeInstruction.ReleaseVaultEffect | programs/anchor-escrow-q3-2025/src/instructions/take.rs:79-103 | The release moves the loaded vault balance, which is the vault's whole balance, to the taker's mint-A account. It then deletes the vault and sweeps its lamports to the maker. |
| TakeInstruction.ReleaseVaultConserves | programs/anchor-escrow-q3-2025/src/instructions/take.rs:79-103 | The release preserves every mint's supply and the lamport total. |
| TakeInstruction.TakeAccountsDistinct | programs/anchor-escrow-q3-2025/src/instructions/take.rs:32-61 | With distinct maker and taker, distinct mints and an escrow that is not the taker, the vault and the three counterpart accounts are four different accounts. |
| TakeInstruction.SettlementOnMaps | programs/anchor-escrow-q3-2025/src/instructions/take.rs:67-103 | Account creation, the payment and the release, composed: exact balance changes of the four token accounts; the vault is deleted and the others are unchanged. |
| TakeInstruction.SettlementOnLamports | programs/anchor-escrow-q3-2025/src/instructions/take.rs:97-103 | Rent paid, then the vault swept to the maker and the record swept to the taker: the maker's and taker's exact lamport changes, and neither closed account keeps lamports. |
| TakeInstruction.TakeTokens | programs/anchor-escrow-q3-2025/src/instructions/take.rs:67-103 | The token accounts after take are the payment followed by the release, applied to the validated state. |
| TakeInstruction.TakeSettles | programs/anchor-escrow-q3-2025/src/instructions/take.rs:67-103 | On success the maker's mint-B account gains exactly the ask and the taker's loses it. The taker's mint-A account gains the vault's whole balance. The vault no longer exists, and every other token account is unchanged. |
| TakeInstruction.TakeFrame | programs/anchor-escrow-q3-2025/src/instructions/take.rs:67-104 | For every successful take, whatever the parties and mints, the vault is deleted and every token account other than the vault and the three counterpart accounts is unchanged. |
| TakeInstruction.TakeLamports | programs/anchor-escrow-q3-2025/src/instructions/take.rs:22-31 | For every successful take, the lamports afterwards are the validated state's, with the vault swept to the maker and then the record swept to the taker. |
| TakeInstruction.TakeMovesRent | programs/anchor-escrow-q3-2025/src/instructions/take.rs:97-103 | The maker gains the vault's lamports. The taker gains the record's lamports, minus the rent of each account it created. Afterwards neither the vault nor the record holds lamports. |
| TakeInstruction.TakeClosesRecord | programs/anchor-escrow-q3-2025/src/instructions/take.rs:22-31 | Take deletes exactly the escrow record it settles (`close = taker`) and leaves the other records and the mints unchanged. |
| TakeInstruction.TakeConserves | programs/anchor-escrow-q3-2025/src/instructions/take.rs:67-104 | Take preserves the supply of every mint and the lamport total, and keeps every balance within a `u64`. |
| TakeInstruction.TakeOnlyOnce | programs/anchor-escrow-q3-2025/src/instructions/take.rs:22-31 | After a successful take, no take of the same escrow address can succeed, whatever its accounts and signers. |
| MakeInstruction.MakeTwiceFails | programs/anchor-escrow-q3-2025/src/lib.rs:15-18 | After a successful make, a second make by the same maker with the same seed and bump fails with `AccountInUse`, whatever mints, amounts and signers it names. |
| MakeInstruction.MakeRecordsAsk | programs/anchor-escrow-q3-2025/src/lib.rs:16 | A successful make adds one record at the derived address. It stores the maker, both mints, the seed, the bump and the ask `amount_b`. |
| MakeInstruction.MakeDeposits | programs/anchor-escrow-q3-2025/src/lib.rs:17 | A successful make moves exactly `amount_a` of mint A from the maker's account to the vault and leaves every other token account unchanged. |
| MakeInstruction.MakeConserves | programs/anchor-escrow-q3-2025/src/lib.rs:15-18 | Make preserves every mint's supply and the lamport total, and keeps every balance within a `u64`. |
| EscrowProgram.MakeThenTake | programs/anchor-escrow-q3-2025/src/lib.rs:15-23 | Make into an empty vault, then take: the taker receives exactly `amount_a`, the maker exactly `amount_b`, and neither the vault nor the record remains. |
| EscrowProgram.Cluster.TransferChecked | programs/anchor-escrow-q3-2025/src/instructions/take.rs:67-78 | The in-place transfer returns the outcome of `TokenProgram.TransferChecked`, leaves the cluster in its result state, and changes nothing on failure. |
| EscrowProgram.Cluster.CloseAccount | programs/anchor-escrow-q3-2025/src/instructions/take.rs:97-103 | The in-place close returns the outcome of `TokenProgram.CloseAccount` and leaves its result state, or no change. |
| EscrowProgram.Cluster.CreateAssociatedTokenAccount | programs/anchor-escrow-q3-2025/src/instructions/take.rs:39-46 | The in-place creation returns the outcome of `TokenProgram.CreateAssociatedTokenAccount` and leaves its result state, or no change. |
| EscrowProgram.Cluster.InitIfNeeded | programs/anchor-escrow-q3-2025/src/instructions/take.rs:54-61 | The in-place `init_if_needed` returns the outcome of `TakeInstruction.InitIfNeeded` and leaves its result state, or no change. |
| EscrowProgram.Cluster.ValidateTake | programs/anchor-escrow-q3-2025/src/instructions/take.rs:8-65 | In-place validation returns the outcome of `TakeInstruction.LoadAccounts` and leaves its state. It hands back the loaded record and vault balance, and rolls back on a late failure. |
| EscrowProgram.Cluster.TransferToMaker | programs/anchor-escrow-q3-2025/src/instructions/take.rs:67-78 | The in-place payment matches `TakeInstruction.TransferToMaker`. |
| EscrowProgram.Cluster.TransferToTakerAndCloseVault | programs/anchor-escrow-q3-2025/src/instructions/take.rs:79-104 | The in-place release runs the transfer and then the close. It matches `TakeInstruction.TransferToTakerAndCloseVault` and rolls back the transfer if the close fails. |
| EscrowProgram.Cluster.CloseEscrow | programs/anchor-escrow-q3-2025/src/instructions/take.rs:24 | The in-place `close = taker` leaves the state of `TakeInstruction.CloseEscrow`. |
| EscrowProgram.Cluster.Take | programs/anchor-escrow-q3-2025/src/lib.rs:20-23 | The in-place take runs its steps in order and matches `TakeInstruction.Take`. It is all-or-nothing, preserves every mint's supply and the lamport total, and keeps balances within a `u64`. |
| EscrowProgram.Cluster.InitEscrow | programs/anchor-escrow-q3-2025/src/lib.rs:16 | The in-place `init_escrow` matches `MakeInstruction.InitEscrow`. |
| EscrowProgram.Cluster.Deposit | programs/anchor-escrow-q3-2025/src/lib.rs:17 | The in-place `deposit` matches `MakeInstruction.Deposit`. |
| EscrowProgram.Cluster.Make | programs/anchor-escrow-q3-2025/src/lib.rs:15-18 | The in-place make runs `init_escrow` and then `deposit`, matches `MakeInstruction.Make`, and is all-or-nothing. |

## Design and code

Where the system's design description and its code differ, the model follows the code.

- Amount positivity: the design rejects offers with a zero `amount_a` or `amount_b`. No such check is visible in take.rs or lib.rs, so the model imposes none. A zero ask is a zero payment.
- Address derivation: the design has (maker, seed) determine the escrow address. The code derives it from the maker, the seed and the record's stored `bump` (take.rs:28-29). `Addresses.EscrowAddressInjective` is therefore stated for the triple. With the canonical bump, which the bump search fixes, the pair suffices.
- Vault balance: the design keeps the vault at exactly the deposit until the offer is resolved. The code sends whatever `vault.amount` holds at validation (take.rs:94), and the model does the same. `EscrowProgram.MakeThenTake` gives the taker exactly `amount_a` only for a vault that was empty before the deposit.
- Errors: the design names `RecordNotFound` and `MintMismatch`. The model reports Anchor's account errors, such as `AccountNotInitialized`, `ConstraintHasOne` and `ConstraintSeeds`, and SPL Token's errors for the transfers.

## Left out

- Refund: `refund_and_close_vault` lives in refund.rs, which is not part of this model. lib.rs:25-27 only forwards to it.
- `init_escrow` and `deposit`: make.rs is not part of this model. It is covered only as far as the call sites in lib.rs fix it:
  - the record is written at the escrow's derived address, which must be unused;
  - the record holds `seed`, the bump and `amount_b`;
  - the deposit is one `transfer_checked` of `amount_a` signed by the maker.
  - Make's own account constraints are not modelled, and neither is the creation of the vault or of the record's rent. A vault must already exist for a deposit to succeed.
- The escrow record's layout: state.rs is not part of this model. The record carries only the fields `take` reads.
- The SHA-256 program-address derivation, the off-curve check and the bump search: derivation is an injective constructor instead.
- `decimals` in `transfer_checked`: reduced to the check that the named mint is the accounts' mint.
- `mint::token_program`, the program-ID and interface checks on `token_program`, `associated_token_program` and `system_program`, and the system-program owner check on `maker`: these are not modelled. A mint is valid when it is in the cluster's set of mints.
- SPL features the program does not use: frozen accounts, delegates, close authorities and native (wrapped SOL) accounts.
- Rent: the rent of a new account is a parameter, and rent-exemption arithmetic is not modelled.
- Lamport balances are unbounded naturals, so `u64` lamport overflow is not modelled. Token balances are checked against `u64::MAX` as SPL does.
- Token-2022: take.rs uses `token_interface`, so the token program may be Token-2022. Only standard SPL Token semantics are modelled. Token-2022 extensions such as transfer fees, transfer hooks, confidential transfers and non-transferable mints are not. The exact amounts in `TakeSettles`, `TransferToMakerEffect`, `ReleaseVaultEffect`, `MakeDeposits` and `MakeThenTake` hold for standard SPL mints only.
- Signatures: a transaction's signers are a set of addresses. A CPI with `signer_seeds` adds the address those seeds derive.
- Error precedence: the model follows Anchor's three validation phases and, inside each phase, the field order. Anchor's order of the constraints inside one field is not modelled. For the record the model checks `has_one`, then `seeds`, then `close`, and the three `has_one` checks share one error. For the associated-token fields (`vault`, `maker_ata_b`, `taker_ata_b`, `taker_ata_a`) it checks the address, then the mint, then the owner, whereas Anchor checks an `init_if_needed` account's mint, owner and address in that order and an existing `associated_token` account's owner before its address. So when several constraints of one field fail at once, the reported error may differ. The `mut` checks are not modelled.
- Concurrency between transactions is the runtime's serialisation. The model proves only that a closed record cannot be taken again.
- tests/anchor-escrow-q3-2025.ts is a scaffold with no escrow assertions. It is not modelled.
- TakeInstruction.TakeSettles: stated only when maker and taker differ and the mints differ. Otherwise counterpart accounts coincide and the per-account balance claims do not apply. For every successful take, `TakeFrame` still gives the deletion of the vault and the unchanged other accounts, and `TakeConserves` gives supply conservation.
- TakeInstruction.TakeTokens: stated only when maker and taker differ. In a self-take the payment is a transfer from an account to itself, which changes nothing, while `PayMaker` would debit and credit the same account.
- TakeInstruction.TakeMovesRent: stated only when maker and taker differ and both are keys, so neither is one of the closed or created accounts.
- TakeInstruction.LoadAccountsLamports: each balance claim about the taker or a created account is stated only when the taker is not itself that created account. Paying rent to oneself moves nothing.
- EscrowProgram.MakeThenTake: stated for a vault that was empty before make and separate from the maker's account, and for a take whose maker and taker differ and whose mints differ. With one mint, the taker's mint-A account is its mint-B account and nets `amount_a` minus `amount_b`.
