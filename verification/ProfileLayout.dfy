/** The canonical profile bytes as one flat list of fields. */
module ProfileLayout {
  import opened Wrappers
  import opened Bytes
  import opened Profile
  import opened ProfileCodec

  /** Two length bytes, big-endian, and the text. */
  function Str(s: string): Buffer
    requires Ascii(s)
  {
    BigEndian(|s|, 2) + TextBytes(s)
  }

  /** A zero byte for nothing, or a one byte and the number. */
  function Opt(v: Option<int>, width: nat): Buffer
    requires v.Some? ==> v.value >= 0
  {
    if v.None? then [0] else [1] + BigEndian(v.value, width)
  }

  function OptStr(s: Option<string>): Buffer
    requires s.Some? ==> Ascii(s.value)
  {
    if s.None? then [0] else [1] + Str(s.value)
  }

  function OptScript(s: Option<string>): Buffer
    requires s.Some? ==> IsHex(s.value)
  {
    if s.None? then [0] else [1] + BigEndian(|s.value| / 2, 2) + HexBytes(s.value)
  }

  function Keys(xs: seq<string>): Buffer
    requires AllHex64(xs)
  {
    if xs == [] then [] else HexBytes(xs[0]) + Keys(xs[1..])
  }

  function Strs(xs: seq<string>): Buffer
    requires AllTexts(xs)
  {
    if xs == [] then [] else Str(xs[0]) + Strs(xs[1..])
  }

  lemma Assoc(a: Buffer, b: Buffer, c: Buffer)
    ensures a + (b + c) == a + b + c
  {
  }

  lemma {:induction false} KeysAre(xs: seq<string>, rest: Buffer)
    requires AllHex64(xs)
    ensures PutHex64s(xs, rest) == Keys(xs) + rest
    decreases |xs|
  {
    if xs != [] {
      KeysAre(xs[1..], rest);
      Assoc(HexBytes(xs[0]), Keys(xs[1..]), rest);
    }
  }

  lemma TextIs(s: string, rest: Buffer)
    requires Ascii(s) && |s| < U16
    ensures PutText(s, rest) == Str(s) + rest
  {
    Assoc(BigEndian(|s|, 2), TextBytes(s), rest);
  }

  lemma {:induction false} TextsAre(xs: seq<string>, rest: Buffer)
    requires AllTexts(xs)
    ensures PutTexts(xs, rest) == Strs(xs) + rest
    decreases |xs|
  {
    if xs != [] {
      TextsAre(xs[1..], rest);
      TextIs(xs[0], PutTexts(xs[1..], rest));
      Assoc(Str(xs[0]), Strs(xs[1..]), rest);
    }
  }

  lemma OptIs(v: Option<int>, width: nat, rest: Buffer)
    requires FitsOpt(v, Pow256(width))
    ensures PutOptInt(v, width, rest) == Opt(v, width) + rest
  {
    if v.Some? {
      Assoc([1], BigEndian(v.value, width), rest);
    }
  }

  /** Version, chain, activation height, policy, vault profile, guardian key. */
  lemma HeaderIs(h: Header, rest: Buffer)
    requires HeaderFits(h)
    ensures h.guardianXOnly.Some? ==> Ascii(Lower(h.guardianXOnly.value))
    ensures PutHeader(h, rest)
            == BigEndian(h.profileVersion, 4) + (Str(h.chainIdentity) + (Opt(h.activationHeight, 8)
               + (BigEndian(h.policyVersion, 4) + (Str(h.vaultProfileVersion)
               + (OptStr(LowerOpt(h.guardianXOnly)) + rest)))))
  {
    hide BigEndian, Pow256, Str, TextBytes;
    Widths();
    if h.guardianXOnly.Some? {
      LowerKeepsHex(h.guardianXOnly.value);
      TextIs(Lower(h.guardianXOnly.value), rest);
      Assoc([1], Str(Lower(h.guardianXOnly.value)), rest);
    }
    var b5 := PutGuardian(h.guardianXOnly, rest);
    TextIs(h.vaultProfileVersion, b5);
    var b3 := BigEndian(h.policyVersion, 4) + PutText(h.vaultProfileVersion, b5);
    OptIs(h.activationHeight, 8, b3);
    TextIs(h.chainIdentity, PutOptInt(h.activationHeight, 8, b3));
  }

  /** Threshold, delay, the number of keys and the keys in lower-case order. */
  lemma RecoveryIs(r: Recovery, rest: Buffer)
    requires RecoveryFits(r)
    ensures AllHex64(NormalizePubkeys(r.pubkeys))
    ensures PutRecovery(r, rest)
            == BigEndian(r.threshold, 1) + (Opt(r.csvBlocks, 4)
               + (BigEndian(|r.pubkeys|, 1) + (Keys(NormalizePubkeys(r.pubkeys)) + rest)))
  {
    hide BigEndian, Pow256, Keys, NormalizePubkeys;
    Widths();
    SortedKeysAreHex(r.pubkeys);
    KeysAre(NormalizePubkeys(r.pubkeys), rest);
    OptIs(r.csvBlocks, 4, BigEndian(|r.pubkeys|, 1) + PutHex64s(NormalizePubkeys(r.pubkeys), rest));
  }

  /** Fee script, then the rates of buying, redeeming and trading. */
  lemma FeesAre(f: Fees, rest: Buffer)
    requires FeesFit(f)
    ensures PutFees(f, rest)
            == OptScript(f.feeScript) + (Opt(f.buyFeeBps, 2) + (Opt(f.redeemFeeBps, 2) + (Opt(f.p2pFeeBps, 2) + rest)))
  {
    hide BigEndian, Pow256, Opt;
    Widths();
    OptIs(f.p2pFeeBps, 2, rest);
    OptIs(f.redeemFeeBps, 2, PutOptInt(f.p2pFeeBps, 2, rest));
    OptIs(f.buyFeeBps, 2, PutOptInt(f.redeemFeeBps, 2, PutOptInt(f.p2pFeeBps, 2, rest)));
    if f.feeScript.Some? {
      var b := HexBytes(f.feeScript.value);
      var tail := Opt(f.buyFeeBps, 2) + (Opt(f.redeemFeeBps, 2) + (Opt(f.p2pFeeBps, 2) + rest));
      Assoc([1], BigEndian(|b|, 2), b + tail);
      Assoc([1] + BigEndian(|b|, 2), b, tail);
    }
  }

  /** Carrier, anchor, supply, allocation, and the two covenant programs, mint first. */
  lemma SurfaceIs(s: Surface, rest: Buffer)
    requires SurfaceFits(s)
    ensures PutSurface(s, rest)
            == BigEndian(s.carrierSats, 8) + (BigEndian(s.anchorSats, 8) + (BigEndian(s.maxProtocolSupplyAtoms, 8)
               + (BigEndian(s.reserveAllocationAtoms, 8) + (HexBytes(s.mintCmr) + (HexBytes(s.redeemCmr) + rest)))))
  {
    hide BigEndian;
  }

  /** Six caps, then the wallets and the token ids, each counted and sorted. */
  lemma CanaryIs(c: Canary, rest: Buffer)
    requires CanaryFits(c)
    ensures AllTexts(CanonicalTexts(c.allowedWalletScripts)) && AllHex64(CanonicalTexts(c.allowedTokenIds))
    ensures PutCanary(c, rest)
            == Opt(c.maxBackingSats, 8) + (Opt(c.maxSingleBuySats, 8) + (Opt(c.maxSingleRedeemPayoutSats, 8)
               + (Opt(c.maxP2pSettlementSats, 8) + (Opt(c.maxMintAtoms, 8) + (Opt(c.minMintGrossSats, 8)
               + (BigEndian(|c.allowedWalletScripts|, 2) + (Strs(CanonicalTexts(c.allowedWalletScripts))
               + (BigEndian(|c.allowedTokenIds|, 2) + (Keys(CanonicalTexts(c.allowedTokenIds)) + rest)))))))))
  {
    hide BigEndian, Pow256, Opt, CanonicalTexts, Keys, Strs, AllHexTexts;
    Widths();
    SortedTextsAreHex(c.allowedWalletScripts);
    TokenIdsAreTexts(c.allowedTokenIds);
    SortedTextsAreHex(c.allowedTokenIds);
    KeysAre(CanonicalTexts(c.allowedTokenIds), rest);
    TextsAre(CanonicalTexts(c.allowedWalletScripts),
             BigEndian(|c.allowedTokenIds|, 2) + PutHex64s(CanonicalTexts(c.allowedTokenIds), rest));
    var b6 := PutLists(c, rest);
    var b5 := PutOptInt(c.minMintGrossSats, 8, b6);
    var b4 := PutOptInt(c.maxMintAtoms, 8, b5);
    var b3 := PutOptInt(c.maxP2pSettlementSats, 8, b4);
    var b2 := PutOptInt(c.maxSingleRedeemPayoutSats, 8, b3);
    OptIs(c.minMintGrossSats, 8, b6);
    OptIs(c.maxMintAtoms, 8, b5);
    OptIs(c.maxP2pSettlementSats, 8, b4);
    OptIs(c.maxSingleRedeemPayoutSats, 8, b3);
    OptIs(c.maxSingleBuySats, 8, b2);
    OptIs(c.maxBackingSats, 8, PutOptInt(c.maxSingleBuySats, 8, b2));
  }

  lemma HeaderFirst(h: Header, rest: Buffer)
    requires HeaderFits(h)
    ensures PutHeader(h, rest) == PutHeader(h, []) + rest
  {
    hide PutHeader, Opt, Str, OptStr, BigEndian;
    HeaderIs(h, rest);
    HeaderIs(h, []);
  }

  lemma RecoveryFirst(r: Recovery, rest: Buffer)
    requires RecoveryFits(r)
    ensures PutRecovery(r, rest) == PutRecovery(r, []) + rest
  {
    hide PutRecovery, Opt, Keys, NormalizePubkeys, BigEndian;
    RecoveryIs(r, rest);
    RecoveryIs(r, []);
  }

  lemma FeesFirst(f: Fees, rest: Buffer)
    requires FeesFit(f)
    ensures PutFees(f, rest) == PutFees(f, []) + rest
  {
    hide PutFees, Opt, OptScript;
    FeesAre(f, rest);
    FeesAre(f, []);
  }

  lemma SurfaceFirst(s: Surface, rest: Buffer)
    requires SurfaceFits(s)
    ensures PutSurface(s, rest) == PutSurface(s, []) + rest
  {
    hide PutSurface, BigEndian;
    SurfaceIs(s, rest);
    SurfaceIs(s, []);
  }

  /** The sections in order: header, recovery, fees, protocol surface, canary limits. */
  lemma SectionsInOrder(p: Profile)
    requires Encodable(p)
    ensures CanonicalBytes(p)
            == PutHeader(p.header, []) + PutRecovery(p.recovery, []) + PutFees(p.fees, []) + PutSurface(p.surface, [])
               + PutCanary(p.canary, [])
  {
    hide PutHeader, PutRecovery, PutFees, PutSurface, PutCanary;
    var canary := PutCanary(p.canary, []);
    SurfaceFirst(p.surface, canary);
    FeesFirst(p.fees, PutSurface(p.surface, canary));
    RecoveryFirst(p.recovery, PutFees(p.fees, PutSurface(p.surface, canary)));
    HeaderFirst(p.header, PutRecovery(p.recovery, PutFees(p.fees, PutSurface(p.surface, canary))));
  }
}
