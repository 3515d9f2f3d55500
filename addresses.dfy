/**
 * Account addresses and program-address derivation.
 *
 * A Solana address is either a key (a wallet, a mint, a program) or a
 * program-derived address (PDA) computed from a program id and a list of
 * seeds. The SHA-256 based derivation and the search for a bump are not
 * modelled: derivation is a datatype constructor, so it is injective by
 * construction and a derived address is never a key.
 */
module Addresses {
  import opened LittleEndian

  /** One seed of a derivation: raw bytes, or the 32 bytes of a key (`key.as_ref()`). */
  datatype Seed = Bytes(bytes: seq<byte>) | KeyBytes(key: Address)

  datatype Address =
    | Key(id: nat)
    | Pda(program: Address, seeds: seq<Seed>)

  /** The escrow program itself (`declare_id!`), the token program and the associated token program. */
  const ESCROW_PROGRAM: Address := Key(0)
  const TOKEN_PROGRAM: Address := Key(1)
  const ASSOCIATED_TOKEN_PROGRAM: Address := Key(2)

  /** The ASCII bytes of `b"escrow"`. */
  const ESCROW_TAG: seq<byte> := [0x65, 0x73, 0x63, 0x72, 0x6f, 0x77]

  /** `create_program_address(seeds, program)`, as an uninterpreted injective function. */
  function Derive(program: Address, seeds: seq<Seed>): Address
  {
    Pda(program, seeds)
  }

  /**
   * The seeds the program signs the vault with and validates the escrow
   * against: `[b"escrow", maker, seed.to_le_bytes(), [bump]]`.
   */
  function EscrowSeeds(maker: Address, seed: u64, bump: byte): seq<Seed>
  {
    [Bytes(ESCROW_TAG), KeyBytes(maker), Bytes(ToLeBytes(seed)), Bytes([bump])]
  }

  /** The address an escrow record of `maker` with `seed` and `bump` must live at. */
  function EscrowAddress(maker: Address, seed: u64, bump: byte): Address
  {
    Derive(ESCROW_PROGRAM, EscrowSeeds(maker, seed, bump))
  }

  /** The associated token account of `wallet` for `mint` (under the one token program modelled). */
  function AssociatedTokenAddress(wallet: Address, mint: Address): Address
  {
    Derive(ASSOCIATED_TOKEN_PROGRAM, [KeyBytes(wallet), KeyBytes(TOKEN_PROGRAM), KeyBytes(mint)])
  }

  /** A transaction can only be signed by a key; a derived address has no private key. */
  predicate IsKey(a: Address)
  {
    a.Key?
  }

  /**
   * The same (maker, seed, bump) always names the same escrow address, and
   * any difference in maker, seed or bump names a different one: the seed is
   * encoded in eight little-endian bytes without loss.
   */
  lemma EscrowAddressInjective(maker1: Address, seed1: u64, bump1: byte,
                               maker2: Address, seed2: u64, bump2: byte)
    ensures EscrowAddress(maker1, seed1, bump1) == EscrowAddress(maker2, seed2, bump2)
        <==> maker1 == maker2 && seed1 == seed2 && bump1 == bump2
  {
    if EscrowAddress(maker1, seed1, bump1) == EscrowAddress(maker2, seed2, bump2) {
      assert EscrowSeeds(maker1, seed1, bump1)[2] == EscrowSeeds(maker2, seed2, bump2)[2];
      ToLeBytesInjective(seed1, seed2);
      assert EscrowSeeds(maker1, seed1, bump1)[3].bytes[0] == bump1;
    }
  }

  /** Associated token accounts of different (wallet, mint) pairs are different accounts. */
  lemma AssociatedTokenAddressInjective(wallet1: Address, mint1: Address, wallet2: Address, mint2: Address)
    ensures AssociatedTokenAddress(wallet1, mint1) == AssociatedTokenAddress(wallet2, mint2)
        <==> wallet1 == wallet2 && mint1 == mint2
  {
    if AssociatedTokenAddress(wallet1, mint1) == AssociatedTokenAddress(wallet2, mint2) {
      assert AssociatedTokenAddress(wallet1, mint1).seeds[0] == KeyBytes(wallet1);
      assert AssociatedTokenAddress(wallet1, mint1).seeds[2] == KeyBytes(mint1);
    }
  }

  /** An escrow address is never an associated token account, nor a signing key. */
  lemma EscrowAddressIsNoTokenAccount(maker: Address, seed: u64, bump: byte, wallet: Address, mint: Address)
    ensures EscrowAddress(maker, seed, bump) != AssociatedTokenAddress(wallet, mint)
    ensures !IsKey(EscrowAddress(maker, seed, bump))
  {
  }
}
