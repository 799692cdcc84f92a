/** The mainnet profile and its validation against the frozen protocol constants. */
module Profile {
  import opened Wrappers
  import opened Constants
  import opened Bytes
  import opened Scripts

  const CHAIN_BITCOIN_MAINNET := "bitcoin-mainnet"
  const VAULT_PROFILE := "COVE_V3_VAULT_PROFILE_MAINNET1"
  const COVE_POLICY_V3: int := 3
  const GRADUATION_RESERVE_ATOMS: int := 0
  const MINT_CMR: string := "7fb27adf2db54588" + "82daf976ba932581" + "5f111b2f3b16eedb" + "72e75f96de4269b2"
  const REDEEM_CMR: string := "37e681b3e70a34ac" + "c3b38680c06fbe4f" + "1b2799bede2607c6" + "c9ed7fcac8c95d56"

  // ── The profile ──────────────────────────────────────────────────────────

  datatype Header = Header(
    profileVersion: int,
    chainIdentity: string,
    activationHeight: Option<int>,
    policyVersion: int,
    vaultProfileVersion: string,
    guardianXOnly: Option<string>)

  datatype Recovery = Recovery(threshold: int, csvBlocks: Option<int>, pubkeys: seq<string>)
  datatype Fees = Fees(feeScript: Option<string>, buyFeeBps: Option<int>, redeemFeeBps: Option<int>,
                       p2pFeeBps: Option<int>)

  datatype Surface = Surface(
    carrierSats: int,
    anchorSats: int,
    maxProtocolSupplyAtoms: int,
    reserveAllocationAtoms: int,
    mintCmr: string,
    redeemCmr: string)

  datatype Canary = Canary(
    maxBackingSats: Option<int>,
    maxSingleBuySats: Option<int>,
    maxSingleRedeemPayoutSats: Option<int>,
    maxP2pSettlementSats: Option<int>,
    maxMintAtoms: Option<int>,
    minMintGrossSats: Option<int>,
    allowedWalletScripts: seq<string>,
    allowedTokenIds: seq<string>)

  datatype Profile = Profile(header: Header, recovery: Recovery, fees: Fees, surface: Surface, canary: Canary)

  function LowerAll(xs: seq<string>): (r: seq<string>)
    ensures |r| == |xs|
  {
    seq(|xs|, i requires 0 <= i < |xs| => Lower(xs[i]))
  }

  predicate AllHex64(xs: seq<string>) {
    forall i :: 0 <= i < |xs| ==> IsHex64(xs[i])
  }

  // ── Validation ───────────────────────────────────────────────────────────

  /** Curve membership and the lists of public test keys are not computed here. */
  datatype Checks = Checks(isPoint: Buffer -> bool, isTestXOnly: string -> bool, isTestScript: string -> bool,
                           allowTestKeys: bool)

  datatype Error =
    | ProfileVersionUnknown
    | ChainIdentityMismatch
    | PolicyVersionMismatch
    | VaultProfileMismatch
    | ProtocolMismatch(field: string)
    | OwnerDecisionRequired(field: string)
    | InvalidActivationHeight
    | InvalidGuardianKey
    | InvalidRecoveryThreshold
    | InvalidRecoveryKeys
    | InvalidRecoveryKey
    | GuardianKeyInRecoverySet
    | DuplicateRecoveryKeys
    | InvalidRecoveryCsv
    | InvalidFeeScript
    | InvalidFeeBps(field: string)
    | InvalidCanaryWalletScript
    | InvalidCanaryTokenId
    | InvalidCanaryCap(field: string)
    | TestKeyInProfile(field: string)

  predicate IsXOnlyKey(k: Checks, hex: string) {
    IsHex64(hex) && k.isPoint(HexBytes(hex))
  }

  /** P2WPKH, P2TR, P2WSH, P2PKH or P2SH, read from the whole bytes of the text. */
  predicate IsStandardMainnetScript(hex: string) {
    && hex != "" && IsHex(hex)
    && var s := HexBytes(hex);
       || IsP2WPKH(s)
       || IsP2TR(s)
       || (|s| == 34 && s[0] == 0x00 && s[1] == 0x20)
       || (|s| == 25 && s[0] == 0x76 && s[1] == 0xa9 && s[2] == 0x14 && s[23] == 0x88 && s[24] == 0xac)
       || (|s| == 23 && s[0] == 0xa9 && s[1] == 0x14 && s[22] == 0x87)
  }

  predicate BpsSet(v: Option<int>) {
    v.Some? && 0 <= v.value <= 10_000
  }

  predicate CapSet(v: Option<int>) {
    v.Some? && v.value > 0
  }

  predicate DistinctTexts(xs: seq<string>) {
    forall i, j :: 0 <= i < j < |xs| ==> xs[i] != xs[j]
  }

  predicate HeaderValid(k: Checks, h: Header) {
    && h.profileVersion == 1 && h.chainIdentity == CHAIN_BITCOIN_MAINNET
    && h.policyVersion == COVE_POLICY_V3 && h.vaultProfileVersion == VAULT_PROFILE
    && h.activationHeight.Some? && h.activationHeight.value > 0
    && h.guardianXOnly.Some? && IsXOnlyKey(k, h.guardianXOnly.value)
    && (k.allowTestKeys || !k.isTestXOnly(h.guardianXOnly.value))
  }

  /** 2-of-3 or 1-of-1 over distinct keys, none of them the guardian's. */
  predicate RecoveryValid(k: Checks, r: Recovery, guardian: Option<string>) {
    && ((r.threshold == 2 && |r.pubkeys| == 3) || (r.threshold == 1 && |r.pubkeys| == 1))
    && (forall i :: 0 <= i < |r.pubkeys| ==>
          && IsXOnlyKey(k, r.pubkeys[i])
          && (guardian.Some? ==> Lower(r.pubkeys[i]) != Lower(guardian.value))
          && (k.allowTestKeys || !k.isTestXOnly(r.pubkeys[i])))
    && DistinctTexts(LowerAll(r.pubkeys))
    && r.csvBlocks.Some? && 1 <= r.csvBlocks.value <= 65_535
  }

  predicate FeesValid(k: Checks, f: Fees) {
    && f.feeScript.Some? && IsStandardMainnetScript(f.feeScript.value)
    && (k.allowTestKeys || !k.isTestScript(f.feeScript.value))
    && BpsSet(f.buyFeeBps) && BpsSet(f.redeemFeeBps) && BpsSet(f.p2pFeeBps)
  }

  predicate SurfaceValid(s: Surface) {
    && s.carrierSats == TOKEN_CARRIER_SATS && s.anchorSats == RESERVE_ANCHOR_SATS
    && s.maxProtocolSupplyAtoms == PUBLIC_SUPPLY_ATOMS && s.reserveAllocationAtoms == GRADUATION_RESERVE_ATOMS
    && Lower(s.mintCmr) == Lower(MINT_CMR) && Lower(s.redeemCmr) == Lower(REDEEM_CMR)
  }

  predicate CanaryValid(k: Checks, c: Canary, supply: int) {
    && c.allowedWalletScripts != [] && c.allowedTokenIds != []
    && (forall i :: 0 <= i < |c.allowedWalletScripts| ==>
          && c.allowedWalletScripts[i] != "" && IsHex(c.allowedWalletScripts[i])
          && (k.allowTestKeys || !k.isTestScript(c.allowedWalletScripts[i])))
    && AllHex64(c.allowedTokenIds)
    && CapSet(c.maxBackingSats) && CapSet(c.maxSingleBuySats) && CapSet(c.maxSingleRedeemPayoutSats)
    && CapSet(c.maxP2pSettlementSats) && CapSet(c.maxMintAtoms) && CapSet(c.minMintGrossSats)
    && c.maxMintAtoms.value <= supply
  }

  predicate Valid(k: Checks, p: Profile) {
    && HeaderValid(k, p.header)
    && RecoveryValid(k, p.recovery, p.header.guardianXOnly)
    && FeesValid(k, p.fees)
    && SurfaceValid(p.surface)
    && CanaryValid(k, p.canary, p.surface.maxProtocolSupplyAtoms)
  }

  method CheckHeader(k: Checks, h: Header) returns (errors: seq<Error>)
    ensures errors == [] <==> HeaderValid(k, h)
  {
    errors := [];
    if h.profileVersion != 1 {
      errors := errors + [ProfileVersionUnknown];
    }
    if h.chainIdentity != CHAIN_BITCOIN_MAINNET {
      errors := errors + [ChainIdentityMismatch];
    }
    if h.policyVersion != COVE_POLICY_V3 {
      errors := errors + [PolicyVersionMismatch];
    }
    if h.vaultProfileVersion != VAULT_PROFILE {
      errors := errors + [VaultProfileMismatch];
    }
    if h.activationHeight.None? {
      errors := errors + [OwnerDecisionRequired("activationHeight")];
    } else if h.activationHeight.value <= 0 {
      errors := errors + [InvalidActivationHeight];
    }
    if h.guardianXOnly.None? {
      errors := errors + [OwnerDecisionRequired("guardianXOnly")];
    } else if !IsXOnlyKey(k, h.guardianXOnly.value) {
      errors := errors + [InvalidGuardianKey];
    }
    if !k.allowTestKeys && h.guardianXOnly.Some? && k.isTestXOnly(h.guardianXOnly.value) {
      errors := errors + [TestKeyInProfile("guardianXOnly")];
    }
  }

  /** The size of the set of lower-case keys against the number of keys. */
  method CountDistinct(xs: seq<string>) returns (n: nat)
    ensures n == |xs| <==> DistinctTexts(xs)
  {
    var seen: set<string> := {};
    for i := 0 to |xs|
      invariant forall x :: x in seen <==> x in xs[..i]
      invariant |seen| <= i
      invariant |seen| == i <==> DistinctTexts(xs[..i])
    {
      assert xs[..i + 1] == xs[..i] + [xs[i]];
      if xs[i] in xs[..i] {
        var j :| 0 <= j < i && xs[..i][j] == xs[i];
        assert xs[..i + 1][j] == xs[..i + 1][i];
        assert seen + {xs[i]} == seen;
      } else {
        assert DistinctTexts(xs[..i]) ==> DistinctTexts(xs[..i + 1]);
        assert DistinctTexts(xs[..i + 1]) ==> DistinctTexts(xs[..i]) by { DistinctPrefix(xs, i); }
      }
      seen := seen + {xs[i]};
    }
    assert xs[..|xs|] == xs;
    n := |seen|;
  }

  lemma DistinctPrefix(xs: seq<string>, i: nat)
    requires i < |xs|
    ensures DistinctTexts(xs[..i + 1]) ==> DistinctTexts(xs[..i])
  {
    assert forall k :: 0 <= k < i ==> xs[..i][k] == xs[..i + 1][k];
  }

  method CheckRecovery(k: Checks, r: Recovery, guardian: Option<string>) returns (errors: seq<Error>)
    ensures errors == [] <==> RecoveryValid(k, r, guardian)
  {
    hide DistinctTexts, Lower, IsXOnlyKey;
    errors := [];
    if r.threshold != 2 && r.threshold != 1 {
      errors := errors + [InvalidRecoveryThreshold];
    }
    if |r.pubkeys| == 0 {
      errors := errors + [OwnerDecisionRequired("recovery.pubkeys")];
    } else if (r.threshold == 2 && |r.pubkeys| != 3) || (r.threshold == 1 && |r.pubkeys| != 1) {
      errors := errors + [InvalidRecoveryKeys];
    }
    var shapeIsGood := errors == [];
    for i := 0 to |r.pubkeys|
      invariant errors == [] <==>
                && shapeIsGood
                && forall j :: 0 <= j < i ==>
                     && IsXOnlyKey(k, r.pubkeys[j])
                     && (guardian.Some? ==> Lower(r.pubkeys[j]) != Lower(guardian.value))
                     && (k.allowTestKeys || !k.isTestXOnly(r.pubkeys[j]))
    {
      if !IsXOnlyKey(k, r.pubkeys[i]) {
        errors := errors + [InvalidRecoveryKey];
      }
      if guardian.Some? && Lower(r.pubkeys[i]) == Lower(guardian.value) {
        errors := errors + [GuardianKeyInRecoverySet];
      }
      if !k.allowTestKeys && k.isTestXOnly(r.pubkeys[i]) {
        errors := errors + [TestKeyInProfile("recovery key")];
      }
    }
    var distinct := CountDistinct(LowerAll(r.pubkeys));
    if distinct != |r.pubkeys| {
      errors := errors + [DuplicateRecoveryKeys];
    }
    if r.csvBlocks.None? {
      errors := errors + [OwnerDecisionRequired("recovery.csvBlocks")];
    } else if r.csvBlocks.value < 1 || r.csvBlocks.value > 65_535 {
      errors := errors + [InvalidRecoveryCsv];
    }
  }

  method CheckFees(k: Checks, f: Fees) returns (errors: seq<Error>)
    ensures errors == [] <==> FeesValid(k, f)
  {
    hide IsStandardMainnetScript;
    errors := [];
    if f.feeScript.None? {
      errors := errors + [OwnerDecisionRequired("feeScript")];
    } else if !IsStandardMainnetScript(f.feeScript.value) {
      errors := errors + [InvalidFeeScript];
    }
    var bps := [("buyFeeBps", f.buyFeeBps), ("redeemFeeBps", f.redeemFeeBps), ("p2pFeeBps", f.p2pFeeBps)];
    for i := 0 to |bps|
      invariant errors == [] <==>
                && f.feeScript.Some? && IsStandardMainnetScript(f.feeScript.value)
                && forall j :: 0 <= j < i ==> BpsSet(bps[j].1)
    {
      if bps[i].1.None? {
        errors := errors + [OwnerDecisionRequired(bps[i].0)];
      } else if !BpsSet(bps[i].1) {
        errors := errors + [InvalidFeeBps(bps[i].0)];
      }
    }
    assert bps[0].1 == f.buyFeeBps && bps[1].1 == f.redeemFeeBps && bps[2].1 == f.p2pFeeBps;
    if !k.allowTestKeys && f.feeScript.Some? && k.isTestScript(f.feeScript.value) {
      errors := errors + [TestKeyInProfile("feeScript")];
    }
  }

  method CheckSurface(s: Surface) returns (errors: seq<Error>)
    ensures errors == [] <==> SurfaceValid(s)
  {
    errors := [];
    if s.carrierSats != TOKEN_CARRIER_SATS {
      errors := errors + [ProtocolMismatch("carrierSats")];
    }
    if s.anchorSats != RESERVE_ANCHOR_SATS {
      errors := errors + [ProtocolMismatch("anchorSats")];
    }
    if s.maxProtocolSupplyAtoms != PUBLIC_SUPPLY_ATOMS {
      errors := errors + [ProtocolMismatch("maxProtocolSupplyAtoms")];
    }
    if s.reserveAllocationAtoms != GRADUATION_RESERVE_ATOMS {
      errors := errors + [ProtocolMismatch("reserveAllocationAtoms")];
    }
    if Lower(s.mintCmr) != Lower(MINT_CMR) {
      errors := errors + [ProtocolMismatch("mintCmr")];
    }
    if Lower(s.redeemCmr) != Lower(REDEEM_CMR) {
      errors := errors + [ProtocolMismatch("redeemCmr")];
    }
  }

  method CheckLists(k: Checks, c: Canary) returns (errors: seq<Error>)
    ensures errors == [] <==>
            && c.allowedWalletScripts != [] && c.allowedTokenIds != []
            && (forall i :: 0 <= i < |c.allowedWalletScripts| ==>
                  && c.allowedWalletScripts[i] != "" && IsHex(c.allowedWalletScripts[i])
                  && (k.allowTestKeys || !k.isTestScript(c.allowedWalletScripts[i])))
            && AllHex64(c.allowedTokenIds)
  {
    hide IsHex;
    errors := [];
    for i := 0 to |c.allowedWalletScripts|
      invariant errors == [] <==> forall j :: 0 <= j < i ==>
                                    && c.allowedWalletScripts[j] != "" && IsHex(c.allowedWalletScripts[j])
                                    && (k.allowTestKeys || !k.isTestScript(c.allowedWalletScripts[j]))
    {
      var w := c.allowedWalletScripts[i];
      if !IsHex(w) || |w| == 0 {
        errors := errors + [InvalidCanaryWalletScript];
      }
      if !k.allowTestKeys && k.isTestScript(w) {
        errors := errors + [TestKeyInProfile("canary wallet")];
      }
    }
    var walletsAreGood := errors == [];
    for i := 0 to |c.allowedTokenIds|
      invariant errors == [] <==> walletsAreGood && forall j :: 0 <= j < i ==> IsHex64(c.allowedTokenIds[j])
    {
      if !IsHex64(c.allowedTokenIds[i]) {
        errors := errors + [InvalidCanaryTokenId];
      }
    }
    if |c.allowedWalletScripts| == 0 {
      errors := errors + [OwnerDecisionRequired("canary.allowedWalletScripts")];
    }
    if |c.allowedTokenIds| == 0 {
      errors := errors + [OwnerDecisionRequired("canary.allowedTokenIds")];
    }
  }

  method CheckCaps(c: Canary, supply: int) returns (errors: seq<Error>)
    ensures errors == [] <==>
            && CapSet(c.maxBackingSats) && CapSet(c.maxSingleBuySats) && CapSet(c.maxSingleRedeemPayoutSats)
            && CapSet(c.maxP2pSettlementSats) && CapSet(c.maxMintAtoms) && CapSet(c.minMintGrossSats)
            && c.maxMintAtoms.value <= supply
  {
    errors := [];
    var caps := [("maxBackingSats", c.maxBackingSats), ("maxSingleBuySats", c.maxSingleBuySats),
                 ("maxSingleRedeemPayoutSats", c.maxSingleRedeemPayoutSats),
                 ("maxP2pSettlementSats", c.maxP2pSettlementSats),
                 ("maxMintAtoms", c.maxMintAtoms), ("minMintGrossSats", c.minMintGrossSats)];
    for i := 0 to |caps|
      invariant errors == [] <==> forall j :: 0 <= j < i ==> CapSet(caps[j].1)
    {
      if caps[i].1.None? {
        errors := errors + [OwnerDecisionRequired(caps[i].0)];
      } else if caps[i].1.value <= 0 {
        errors := errors + [InvalidCanaryCap(caps[i].0)];
      }
    }
    assert caps[0].1 == c.maxBackingSats && caps[1].1 == c.maxSingleBuySats && caps[2].1 == c.maxSingleRedeemPayoutSats;
    assert caps[3].1 == c.maxP2pSettlementSats && caps[4].1 == c.maxMintAtoms && caps[5].1 == c.minMintGrossSats;
    if c.maxMintAtoms.Some? && c.maxMintAtoms.value > supply {
      errors := errors + [InvalidCanaryCap("maxMintAtoms")];
    }
  }

  /** Every failure, grouped by section; none exactly when the profile is valid. */
  method ValidateMainnetProfile(k: Checks, p: Profile) returns (errors: seq<Error>)
    ensures errors == [] <==> Valid(k, p)
  {
    hide HeaderValid, RecoveryValid, FeesValid, SurfaceValid;
    var header := CheckHeader(k, p.header);
    var recovery := CheckRecovery(k, p.recovery, p.header.guardianXOnly);
    var fees := CheckFees(k, p.fees);
    var surface := CheckSurface(p.surface);
    var lists := CheckLists(k, p.canary);
    var caps := CheckCaps(p.canary, p.surface.maxProtocolSupplyAtoms);
    errors := header + surface + recovery + fees + lists + caps;
  }
}
