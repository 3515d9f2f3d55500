/**
 * Fixed-width integers of the escrow program and the little-endian byte
 * encoding of a `u64` (Rust's `u64::to_le_bytes`), which the program uses
 * to turn the escrow `seed` into an address-derivation seed.
 */
module LittleEndian {

  newtype byte = x: int | 0 <= x < 0x100

  newtype u64 = x: int | 0 <= x < 0x1_0000_0000_0000_0000

  const U64_MAX: nat := 0xFFFF_FFFF_FFFF_FFFF

  /** 256 to the power n. */
  function Pow256(n: nat): (r: nat)
    ensures r > 0
  {
    if n == 0 then 1 else 0x100 * Pow256(n - 1)
  }

  /** The n least significant base-256 digits of x, least significant first. */
  function ToLe(x: nat, n: nat): (bs: seq<byte>)
    ensures |bs| == n
  {
    if n == 0 then [] else [(x % 0x100) as byte] + ToLe(x / 0x100, n - 1)
  }

  /** The number that a little-endian byte string denotes: byte 0 is the least significant. */
  function FromLe(bs: seq<byte>): (x: nat)
    ensures x < Pow256(|bs|)
  {
    if bs == [] then 0
    else
      var rest := FromLe(bs[1..]);
      assert rest <= Pow256(|bs| - 1) - 1;
      assert 0x100 * rest <= 0x100 * Pow256(|bs| - 1) - 0x100;
      bs[0] as nat + 0x100 * rest
  }

  /** `u64::to_le_bytes`: the eight bytes of x, least significant first. */
  function ToLeBytes(x: u64): (bs: seq<byte>)
    ensures |bs| == 8
  {
    ToLe(x as nat, 8)
  }

  /** Decoding the n-byte encoding of a number below 256^n gives the number back. */
  lemma {:induction false} FromLeToLe(x: nat, n: nat)
    requires x < Pow256(n)
    ensures FromLe(ToLe(x, n)) == x
  {
    if n > 0 {
      var q, r := x / 0x100, x % 0x100;
      assert x == 0x100 * q + r;
      assert q < Pow256(n - 1);
      FromLeToLe(q, n - 1);
      assert ToLe(x, n)[1..] == ToLe(q, n - 1);
    }
  }

  /** The eight little-endian bytes of a `u64` decode back to it. */
  lemma ToLeBytesRoundTrip(x: u64)
    ensures FromLe(ToLeBytes(x)) == x as nat
  {
    assert Pow256(8) == 0x1_0000_0000_0000_0000;
    FromLeToLe(x as nat, 8);
  }

  /** Distinct seeds have distinct encodings, so the encoding loses nothing. */
  lemma ToLeBytesInjective(x: u64, y: u64)
    ensures ToLeBytes(x) == ToLeBytes(y) <==> x == y
  {
    if ToLeBytes(x) == ToLeBytes(y) {
      ToLeBytesRoundTrip(x);
      ToLeBytesRoundTrip(y);
    }
  }
}
