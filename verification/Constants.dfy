/** Protocol constants shared by several components. */
module Constants {
  /** Supplies are in display tokens unless named atoms. */
  const ATOMS_PER_TOKEN: nat := 100_000_000
  const PUBLIC_SUPPLY: nat := 21_000_000
  const PUBLIC_SUPPLY_ATOMS: nat := PUBLIC_SUPPLY * ATOMS_PER_TOKEN
  const STAGE_COUNT: nat := 210
  const TOKENS_PER_STAGE: nat := 100_000
  const LOT_TOKENS: nat := 1_000

  /** Sats every vault output carries besides its reserve, and sats of a token carrier. */
  const RESERVE_ANCHOR_SATS: nat := 10_000
  const TOKEN_CARRIER_SATS: nat := 1_000

  const U64_MAX: int := 0xffff_ffff_ffff_ffff
}
