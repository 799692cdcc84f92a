/** The canonical bytes of a mainnet profile, and a decoder that recovers the profile up to hex
    case and list order. */
module ProfileCodec {
  import opened Wrappers
  import opened Constants
  import opened Bytes
  import opened Sorting
  import opened Profile

  const U8: nat := 0x100
  const U16: nat := 0x1_0000
  const U32: nat := 0x1_0000_0000
  const U64: nat := 0x1_0000_0000_0000_0000

  // ── Canonical order and case ─────────────────────────────────────────────

  /** Recovery keys are compared in lower case but keep their own. */
  predicate LowerLe(a: string, b: string) {
    LexLe(Lower(a), Lower(b))
  }

  function NormalizePubkeys(keys: seq<string>): seq<string> {
    Sort(keys, LowerLe)
  }

  function CanonicalTexts(xs: seq<string>): seq<string> {
    Sort(LowerAll(xs), LexLe)
  }

  lemma {:induction false} InsertLowers(x: string, xs: seq<string>)
    ensures LowerAll(Insert(x, xs, LowerLe)) == Insert(Lower(x), LowerAll(xs), LexLe)
    decreases |xs|
  {
    if xs != [] {
      assert LowerAll(xs)[1..] == LowerAll(xs[1..]);
      assert LowerAll(xs)[0] == Lower(xs[0]);
      InsertLowers(x, xs[1..]);
      if LowerLe(x, xs[0]) {
        assert LowerAll([x] + xs) == [Lower(x)] + LowerAll(xs);
      } else {
        var r := Insert(x, xs[1..], LowerLe);
        assert LowerAll([xs[0]] + r) == [Lower(xs[0])] + LowerAll(r);
      }
    }
  }

  /** Sorting the originals by lower case and lowering afterwards is sorting the lowered ones. */
  lemma {:induction false} NormalizeThenLower(keys: seq<string>)
    ensures LowerAll(NormalizePubkeys(keys)) == CanonicalTexts(keys)
    decreases |keys|
  {
    if keys != [] {
      NormalizeThenLower(keys[1..]);
      InsertLowers(keys[0], NormalizePubkeys(keys[1..]));
      assert LowerAll(keys)[1..] == LowerAll(keys[1..]);
      assert LowerAll(keys)[0] == Lower(keys[0]);
    }
  }

  function LowerOpt(s: Option<string>): Option<string> {
    if s.None? then None else Some(Lower(s.value))
  }

  /** The fee script as the buffer parser sees it. */
  function EvenFeeScript(s: Option<string>): Option<string> {
    if s.None? then None else Some(Lower(WholePairs(s.value)))
  }

  /** What the bytes retain. */
  function Normal(p: Profile): Profile {
    p.(header := p.header.(guardianXOnly := LowerOpt(p.header.guardianXOnly)),
       recovery := p.recovery.(pubkeys := CanonicalTexts(p.recovery.pubkeys)),
       fees := p.fees.(feeScript := EvenFeeScript(p.fees.feeScript)),
       surface := p.surface.(mintCmr := Lower(p.surface.mintCmr), redeemCmr := Lower(p.surface.redeemCmr)),
       canary := p.canary.(allowedWalletScripts := CanonicalTexts(p.canary.allowedWalletScripts),
                           allowedTokenIds := CanonicalTexts(p.canary.allowedTokenIds)))
  }

  // ── What the encoder accepts ─────────────────────────────────────────────

  predicate FitsOpt(v: Option<int>, bound: nat) {
    v.Some? ==> 0 <= v.value < bound
  }

  predicate AllHexTexts(xs: seq<string>) {
    forall i :: 0 <= i < |xs| ==> IsHex(xs[i]) && |xs[i]| < U16
  }

  predicate HeaderFits(h: Header) {
    && 0 <= h.profileVersion < U32 && 0 <= h.policyVersion < U32
    && Ascii(h.chainIdentity) && |h.chainIdentity| < U16
    && Ascii(h.vaultProfileVersion) && |h.vaultProfileVersion| < U16
    && FitsOpt(h.activationHeight, U64)
    && (h.guardianXOnly.Some? ==> IsHex64(h.guardianXOnly.value))
  }

  predicate RecoveryFits(r: Recovery) {
    && 0 <= r.threshold < U8 && FitsOpt(r.csvBlocks, U32)
    && |r.pubkeys| < U8 && AllHex64(r.pubkeys)
  }

  predicate FeesFit(f: Fees) {
    && (f.feeScript.Some? ==> IsHex(f.feeScript.value) && |f.feeScript.value| / 2 < U16)
    && FitsOpt(f.buyFeeBps, U16) && FitsOpt(f.redeemFeeBps, U16) && FitsOpt(f.p2pFeeBps, U16)
  }

  predicate SurfaceFits(s: Surface) {
    && 0 <= s.carrierSats < U64 && 0 <= s.anchorSats < U64
    && 0 <= s.maxProtocolSupplyAtoms < U64 && 0 <= s.reserveAllocationAtoms < U64
    && IsHex64(s.mintCmr) && IsHex64(s.redeemCmr)
  }

  predicate CanaryFits(c: Canary) {
    && FitsOpt(c.maxBackingSats, U64) && FitsOpt(c.maxSingleBuySats, U64)
    && FitsOpt(c.maxSingleRedeemPayoutSats, U64) && FitsOpt(c.maxP2pSettlementSats, U64)
    && FitsOpt(c.maxMintAtoms, U64) && FitsOpt(c.minMintGrossSats, U64)
    && |c.allowedWalletScripts| < U16 && AllHexTexts(c.allowedWalletScripts)
    && |c.allowedTokenIds| < U16 && AllHex64(c.allowedTokenIds)
  }

  /** Every number fits the width it is written in and every string is what it claims to be; the
      profile may still be incomplete. Outside the number and length ranges the writer throws. */
  predicate Encodable(p: Profile) {
    && HeaderFits(p.header) && RecoveryFits(p.recovery) && FeesFit(p.fees)
    && SurfaceFits(p.surface) && CanaryFits(p.canary)
  }

  // ── Fields, each written in front of what follows ────────────────────────

  function PutOptInt(v: Option<int>, width: nat, rest: Buffer): Buffer
    requires FitsOpt(v, Pow256(width))
  {
    if v.None? then [0] + rest else [1] + (BigEndian(v.value, width) + rest)
  }

  function TakeOptInt(b: Buffer, width: nat): Option<Taken<Option<int>>> {
    var tag :- TakeInt(b, 1);
    if tag.value == 0 then Some(Taken(None, tag.rest))
    else if tag.value != 1 then None
    else
      var v :- TakeInt(tag.rest, width);
      Some(Taken(Some(v.value), v.rest))
  }

  lemma TakesTag(tag: nat, rest: Buffer)
    requires tag < 256
    ensures TakeInt([tag] + rest, 1) == Some(Taken(tag, rest))
  {
    TakesBlock([tag], rest);
    assert [tag][..0] == [];
    assert FromBigEndian([tag]) == 256 * FromBigEndian([]) + tag;
  }

  lemma TakesOptInt(v: Option<int>, width: nat, rest: Buffer)
    requires FitsOpt(v, Pow256(width))
    ensures TakeOptInt(PutOptInt(v, width, rest), width) == Some(Taken(v, rest))
  {
    if v.None? {
      TakesTag(0, rest);
    } else {
      TakesTag(1, BigEndian(v.value, width) + rest);
      TakesInt(v.value, width, rest);
    }
  }

  function PutText(s: string, rest: Buffer): Buffer
    requires Ascii(s) && |s| < U16
  {
    BigEndian(|s|, 2) + (TextBytes(s) + rest)
  }

  function TakeText(b: Buffer): Option<Taken<string>> {
    var n :- TakeInt(b, 2);
    var t :- TakeBlock(n.rest, n.value);
    Some(Taken(TextOf(t.value), t.rest))
  }

  lemma TakesText(s: string, rest: Buffer)
    requires Ascii(s) && |s| < U16
    ensures TakeText(PutText(s, rest)) == Some(Taken(s, rest))
  {
    Widths();
    TakesInt(|s|, 2, TextBytes(s) + rest);
    TakesBlock(TextBytes(s), rest);
    TextReads(s);
  }

  lemma Widths()
    ensures Pow256(1) == U8 && Pow256(2) == U16 && Pow256(4) == U32 && Pow256(8) == U64
  {
    assert Pow256(0) == 1 && Pow256(3) == 0x100_0000 && Pow256(5) == 0x100_0000_0000;
    assert Pow256(6) == 0x1_0000_0000_0000 && Pow256(7) == 0x100_0000_0000_0000;
  }

  function PutGuardian(g: Option<string>, rest: Buffer): Buffer
    requires g.Some? ==> IsHex64(g.value)
  {
    if g.None? then [0] + rest
    else
      LowerKeepsHex(g.value);
      [1] + PutText(Lower(g.value), rest)
  }

  function TakeGuardian(b: Buffer): Option<Taken<Option<string>>> {
    var tag :- TakeInt(b, 1);
    if tag.value == 0 then Some(Taken(None, tag.rest))
    else if tag.value != 1 then None
    else
      var t :- TakeText(tag.rest);
      Some(Taken(Some(t.value), t.rest))
  }

  lemma TakesGuardian(g: Option<string>, rest: Buffer)
    requires g.Some? ==> IsHex64(g.value)
    ensures TakeGuardian(PutGuardian(g, rest)) == Some(Taken(LowerOpt(g), rest))
  {
    if g.None? {
      TakesTag(0, rest);
    } else {
      LowerKeepsHex(g.value);
      TakesTag(1, PutText(Lower(g.value), rest));
      TakesText(Lower(g.value), rest);
    }
  }

  function PutScript(s: Option<string>, rest: Buffer): Buffer
    requires s.Some? ==> IsHex(s.value) && |s.value| / 2 < U16
  {
    if s.None? then [0] + rest
    else [1] + (BigEndian(|HexBytes(s.value)|, 2) + (HexBytes(s.value) + rest))
  }

  function TakeScript(b: Buffer): Option<Taken<Option<string>>> {
    var tag :- TakeInt(b, 1);
    if tag.value == 0 then Some(Taken(None, tag.rest))
    else if tag.value != 1 then None
    else
      var n :- TakeInt(tag.rest, 2);
      var t :- TakeBlock(n.rest, n.value);
      Some(Taken(Some(HexOf(t.value)), t.rest))
  }

  lemma TakesScript(s: Option<string>, rest: Buffer)
    requires s.Some? ==> IsHex(s.value) && |s.value| / 2 < U16
    ensures TakeScript(PutScript(s, rest)) == Some(Taken(EvenFeeScript(s), rest))
  {
    if s.None? {
      TakesTag(0, rest);
    } else {
      var b := HexBytes(s.value);
      Widths();
      TakesTag(1, BigEndian(|b|, 2) + (b + rest));
      TakesInt(|b|, 2, b + rest);
      TakesBlock(b, rest);
      HexReads(s.value);
    }
  }

  function PutHex64(s: string, rest: Buffer): Buffer
    requires IsHex64(s)
  {
    HexBytes(s) + rest
  }

  function TakeHex64(b: Buffer): Option<Taken<string>> {
    var t :- TakeBlock(b, 32);
    Some(Taken(HexOf(t.value), t.rest))
  }

  lemma TakesHex64(s: string, rest: Buffer)
    requires IsHex64(s)
    ensures TakeHex64(PutHex64(s, rest)) == Some(Taken(Lower(s), rest))
  {
    TakesBlock(HexBytes(s), rest);
    HexReads(s);
    assert WholePairs(s) == s;
  }

  function PutHex64s(xs: seq<string>, rest: Buffer): Buffer
    requires AllHex64(xs)
  {
    if xs == [] then rest else PutHex64(xs[0], PutHex64s(xs[1..], rest))
  }

  function TakeHex64s(b: Buffer, n: nat): Option<Taken<seq<string>>> {
    if n == 0 then Some(Taken([], b))
    else
      var x :- TakeHex64(b);
      var xs :- TakeHex64s(x.rest, n - 1);
      Some(Taken([x.value] + xs.value, xs.rest))
  }

  lemma {:induction false} TakesHex64s(xs: seq<string>, rest: Buffer)
    requires AllHex64(xs)
    ensures TakeHex64s(PutHex64s(xs, rest), |xs|) == Some(Taken(LowerAll(xs), rest))
    decreases |xs|
  {
    hide TakeHex64, PutHex64, IsHex64;
    if xs != [] {
      TakesHex64(xs[0], PutHex64s(xs[1..], rest));
      TakesHex64s(xs[1..], rest);
      assert LowerAll(xs) == [Lower(xs[0])] + LowerAll(xs[1..]);
    }
  }

  predicate AllTexts(xs: seq<string>) {
    forall i :: 0 <= i < |xs| ==> Ascii(xs[i]) && |xs[i]| < U16
  }

  function PutTexts(xs: seq<string>, rest: Buffer): Buffer
    requires AllTexts(xs)
  {
    if xs == [] then rest else PutText(xs[0], PutTexts(xs[1..], rest))
  }

  function TakeTexts(b: Buffer, n: nat): Option<Taken<seq<string>>> {
    if n == 0 then Some(Taken([], b))
    else
      var x :- TakeText(b);
      var xs :- TakeTexts(x.rest, n - 1);
      Some(Taken([x.value] + xs.value, xs.rest))
  }

  lemma {:induction false} TakesTexts(xs: seq<string>, rest: Buffer)
    requires AllTexts(xs)
    ensures TakeTexts(PutTexts(xs, rest), |xs|) == Some(Taken(xs, rest))
    decreases |xs|
  {
    hide TakeText, PutText, Ascii;
    if xs != [] {
      TakesText(xs[0], PutTexts(xs[1..], rest));
      TakesTexts(xs[1..], rest);
      assert xs == [xs[0]] + xs[1..];
    }
  }

  // ── Sections ─────────────────────────────────────────────────────────────

  function PutHeader(h: Header, rest: Buffer): Buffer
    requires HeaderFits(h)
  {
    Widths();
    BigEndian(h.profileVersion, 4) +
    PutText(h.chainIdentity,
            PutOptInt(h.activationHeight, 8,
                      BigEndian(h.policyVersion, 4) +
                      PutText(h.vaultProfileVersion, PutGuardian(h.guardianXOnly, rest))))
  }

  function TakeHeader(b: Buffer): Option<Taken<Header>> {
    var version :- TakeInt(b, 4);
    var chain :- TakeText(version.rest);
    var activation :- TakeOptInt(chain.rest, 8);
    var policy :- TakeInt(activation.rest, 4);
    var vault :- TakeText(policy.rest);
    var guardian :- TakeGuardian(vault.rest);
    Some(Taken(Header(version.value, chain.value, activation.value, policy.value, vault.value, guardian.value),
               guardian.rest))
  }

  lemma TakesHeader(h: Header, rest: Buffer)
    requires HeaderFits(h)
    ensures TakeHeader(PutHeader(h, rest)) == Some(Taken(h.(guardianXOnly := LowerOpt(h.guardianXOnly)), rest))
  {
    hide TakeInt, TakeText, TakeOptInt, TakeGuardian, PutText, PutOptInt, PutGuardian, BigEndian, Ascii, Pow256;
    Widths();
    var b5 := PutGuardian(h.guardianXOnly, rest);
    var b4 := PutText(h.vaultProfileVersion, b5);
    var b3 := BigEndian(h.policyVersion, 4) + b4;
    var b2 := PutOptInt(h.activationHeight, 8, b3);
    var b1 := PutText(h.chainIdentity, b2);
    TakesInt(h.profileVersion, 4, b1);
    TakesText(h.chainIdentity, b2);
    TakesOptInt(h.activationHeight, 8, b3);
    TakesInt(h.policyVersion, 4, b4);
    TakesText(h.vaultProfileVersion, b5);
    TakesGuardian(h.guardianXOnly, rest);
  }

  lemma SortedKeysAreHex(keys: seq<string>)
    requires AllHex64(keys)
    ensures AllHex64(NormalizePubkeys(keys)) && |NormalizePubkeys(keys)| == |keys|
  {
    SortKeeps(keys, LowerLe);
    var sorted := NormalizePubkeys(keys);
    forall i | 0 <= i < |sorted|
      ensures IsHex64(sorted[i])
    {
      assert sorted[i] in multiset(keys);
    }
  }

  lemma SortedTextsAreHex(xs: seq<string>)
    requires AllHexTexts(xs)
    ensures AllHexTexts(CanonicalTexts(xs)) && AllTexts(CanonicalTexts(xs)) && |CanonicalTexts(xs)| == |xs|
    ensures AllHex64(xs) ==> AllHex64(CanonicalTexts(xs))
  {
    SortKeeps(LowerAll(xs), LexLe);
    var sorted := CanonicalTexts(xs);
    forall i | 0 <= i < |sorted|
      ensures IsHex(sorted[i]) && Ascii(sorted[i]) && |sorted[i]| < U16 && (AllHex64(xs) ==> IsHex64(sorted[i]))
    {
      assert sorted[i] in multiset(LowerAll(xs));
      var k :| 0 <= k < |xs| && LowerAll(xs)[k] == sorted[i];
      LowerKeepsHex(xs[k]);
    }
  }

  function PutRecovery(r: Recovery, rest: Buffer): Buffer
    requires RecoveryFits(r)
  {
    Widths();
    SortedKeysAreHex(r.pubkeys);
    BigEndian(r.threshold, 1) +
    PutOptInt(r.csvBlocks, 4,
              BigEndian(|r.pubkeys|, 1) + PutHex64s(NormalizePubkeys(r.pubkeys), rest))
  }

  function TakeRecovery(b: Buffer): Option<Taken<Recovery>> {
    var threshold :- TakeInt(b, 1);
    var csv :- TakeOptInt(threshold.rest, 4);
    var n :- TakeInt(csv.rest, 1);
    var keys :- TakeHex64s(n.rest, n.value);
    Some(Taken(Recovery(threshold.value, csv.value, keys.value), keys.rest))
  }

  lemma TakesRecovery(r: Recovery, rest: Buffer)
    requires RecoveryFits(r)
    ensures TakeRecovery(PutRecovery(r, rest)) == Some(Taken(r.(pubkeys := CanonicalTexts(r.pubkeys)), rest))
  {
    hide TakeInt, TakeOptInt, TakeHex64s, PutOptInt, PutHex64s, BigEndian, Pow256, NormalizePubkeys, CanonicalTexts;
    Widths();
    SortedKeysAreHex(r.pubkeys);
    NormalizeThenLower(r.pubkeys);
    var b3 := PutHex64s(NormalizePubkeys(r.pubkeys), rest);
    var b2 := BigEndian(|r.pubkeys|, 1) + b3;
    TakesInt(r.threshold, 1, PutOptInt(r.csvBlocks, 4, b2));
    TakesOptInt(r.csvBlocks, 4, b2);
    TakesInt(|r.pubkeys|, 1, b3);
    TakesHex64s(NormalizePubkeys(r.pubkeys), rest);
  }

  function PutFees(f: Fees, rest: Buffer): Buffer
    requires FeesFit(f)
  {
    Widths();
    PutScript(f.feeScript,
              PutOptInt(f.buyFeeBps, 2, PutOptInt(f.redeemFeeBps, 2, PutOptInt(f.p2pFeeBps, 2, rest))))
  }

  function TakeFees(b: Buffer): Option<Taken<Fees>> {
    var script :- TakeScript(b);
    var buy :- TakeOptInt(script.rest, 2);
    var redeem :- TakeOptInt(buy.rest, 2);
    var p2p :- TakeOptInt(redeem.rest, 2);
    Some(Taken(Fees(script.value, buy.value, redeem.value, p2p.value), p2p.rest))
  }

  lemma TakesFees(f: Fees, rest: Buffer)
    requires FeesFit(f)
    ensures TakeFees(PutFees(f, rest)) == Some(Taken(f.(feeScript := EvenFeeScript(f.feeScript)), rest))
  {
    hide TakeScript, TakeOptInt, PutScript, PutOptInt, Pow256;
    Widths();
    var b3 := PutOptInt(f.p2pFeeBps, 2, rest);
    var b2 := PutOptInt(f.redeemFeeBps, 2, b3);
    var b1 := PutOptInt(f.buyFeeBps, 2, b2);
    TakesScript(f.feeScript, b1);
    TakesOptInt(f.buyFeeBps, 2, b2);
    TakesOptInt(f.redeemFeeBps, 2, b3);
    TakesOptInt(f.p2pFeeBps, 2, rest);
  }

  function PutSurface(s: Surface, rest: Buffer): Buffer
    requires SurfaceFits(s)
  {
    BigEndian(s.carrierSats, 8) +
    (BigEndian(s.anchorSats, 8) +
     (BigEndian(s.maxProtocolSupplyAtoms, 8) +
      (BigEndian(s.reserveAllocationAtoms, 8) +
       PutHex64(s.mintCmr, PutHex64(s.redeemCmr, rest)))))
  }

  function TakeSurface(b: Buffer): Option<Taken<Surface>> {
    var carrier :- TakeInt(b, 8);
    var anchor :- TakeInt(carrier.rest, 8);
    var supply :- TakeInt(anchor.rest, 8);
    var reserve :- TakeInt(supply.rest, 8);
    var mint :- TakeHex64(reserve.rest);
    var redeem :- TakeHex64(mint.rest);
    Some(Taken(Surface(carrier.value, anchor.value, supply.value, reserve.value, mint.value, redeem.value),
               redeem.rest))
  }

  lemma TakesSurface(s: Surface, rest: Buffer)
    requires SurfaceFits(s)
    ensures TakeSurface(PutSurface(s, rest))
            == Some(Taken(s.(mintCmr := Lower(s.mintCmr), redeemCmr := Lower(s.redeemCmr)), rest))
  {
    hide TakeInt, TakeHex64, PutHex64, BigEndian, IsHex64, Pow256;
    Widths();
    var b5 := PutHex64(s.redeemCmr, rest);
    var b4 := PutHex64(s.mintCmr, b5);
    var b3 := BigEndian(s.reserveAllocationAtoms, 8) + b4;
    var b2 := BigEndian(s.maxProtocolSupplyAtoms, 8) + b3;
    var b1 := BigEndian(s.anchorSats, 8) + b2;
    TakesInt(s.carrierSats, 8, b1);
    TakesInt(s.anchorSats, 8, b2);
    TakesInt(s.maxProtocolSupplyAtoms, 8, b3);
    TakesInt(s.reserveAllocationAtoms, 8, b4);
    TakesHex64(s.mintCmr, b5);
    TakesHex64(s.redeemCmr, rest);
  }

  lemma TokenIdsAreTexts(xs: seq<string>)
    requires AllHex64(xs)
    ensures AllHexTexts(xs)
  {
  }

  function PutLists(c: Canary, rest: Buffer): Buffer
    requires CanaryFits(c)
  {
    SortedTextsAreHex(c.allowedWalletScripts);
    TokenIdsAreTexts(c.allowedTokenIds);
    SortedTextsAreHex(c.allowedTokenIds);
    BigEndian(|c.allowedWalletScripts|, 2) +
    PutTexts(CanonicalTexts(c.allowedWalletScripts),
             BigEndian(|c.allowedTokenIds|, 2) + PutHex64s(CanonicalTexts(c.allowedTokenIds), rest))
  }

  function TakeLists(b: Buffer): Option<Taken<(seq<string>, seq<string>)>> {
    var n :- TakeInt(b, 2);
    var wallets :- TakeTexts(n.rest, n.value);
    var m :- TakeInt(wallets.rest, 2);
    var ids :- TakeHex64s(m.rest, m.value);
    Some(Taken((wallets.value, ids.value), ids.rest))
  }

  lemma LoweredStaysLowered(xs: seq<string>)
    requires AllHexTexts(xs)
    ensures LowerAll(CanonicalTexts(xs)) == CanonicalTexts(xs)
  {
    SortKeeps(LowerAll(xs), LexLe);
    var sorted := CanonicalTexts(xs);
    forall i | 0 <= i < |sorted|
      ensures Lower(sorted[i]) == sorted[i]
    {
      assert sorted[i] in multiset(LowerAll(xs));
      var k :| 0 <= k < |xs| && LowerAll(xs)[k] == sorted[i];
      LowerKeepsHex(xs[k]);
    }
  }

  lemma TakesLists(c: Canary, rest: Buffer)
    requires CanaryFits(c)
    ensures TakeLists(PutLists(c, rest))
            == Some(Taken((CanonicalTexts(c.allowedWalletScripts), CanonicalTexts(c.allowedTokenIds)), rest))
  {
    hide TakeInt, TakeTexts, TakeHex64s, PutTexts, PutHex64s, BigEndian, Pow256, CanonicalTexts, AllHexTexts,
         AllHex64, AllTexts;
    Widths();
    SortedTextsAreHex(c.allowedWalletScripts);
    TokenIdsAreTexts(c.allowedTokenIds);
    SortedTextsAreHex(c.allowedTokenIds);
    LoweredStaysLowered(c.allowedTokenIds);
    var wallets, ids := CanonicalTexts(c.allowedWalletScripts), CanonicalTexts(c.allowedTokenIds);
    var b2 := PutHex64s(ids, rest);
    var b1 := BigEndian(|ids|, 2) + b2;
    TakesInt(|wallets|, 2, PutTexts(wallets, b1));
    TakesTexts(wallets, b1);
    TakesInt(|ids|, 2, b2);
    TakesHex64s(ids, rest);
  }

  function PutCanary(c: Canary, rest: Buffer): Buffer
    requires CanaryFits(c)
  {
    Widths();
    PutOptInt(c.maxBackingSats, 8,
              PutOptInt(c.maxSingleBuySats, 8,
                        PutOptInt(c.maxSingleRedeemPayoutSats, 8,
                                  PutOptInt(c.maxP2pSettlementSats, 8,
                                            PutOptInt(c.maxMintAtoms, 8,
                                                      PutOptInt(c.minMintGrossSats, 8, PutLists(c, rest)))))))
  }

  function TakeCanary(b: Buffer): Option<Taken<Canary>> {
    var backing :- TakeOptInt(b, 8);
    var buy :- TakeOptInt(backing.rest, 8);
    var redeem :- TakeOptInt(buy.rest, 8);
    var p2p :- TakeOptInt(redeem.rest, 8);
    var mint :- TakeOptInt(p2p.rest, 8);
    var gross :- TakeOptInt(mint.rest, 8);
    var lists :- TakeLists(gross.rest);
    Some(Taken(Canary(backing.value, buy.value, redeem.value, p2p.value, mint.value, gross.value,
                      lists.value.0, lists.value.1), lists.rest))
  }

  lemma TakesCanary(c: Canary, rest: Buffer)
    requires CanaryFits(c)
    ensures TakeCanary(PutCanary(c, rest))
            == Some(Taken(c.(allowedWalletScripts := CanonicalTexts(c.allowedWalletScripts),
                             allowedTokenIds := CanonicalTexts(c.allowedTokenIds)), rest))
  {
    hide TakeOptInt, TakeLists, PutOptInt, PutLists, Pow256, CanonicalTexts, AllHexTexts, AllHex64;
    Widths();
    var b6 := PutLists(c, rest);
    var b5 := PutOptInt(c.minMintGrossSats, 8, b6);
    var b4 := PutOptInt(c.maxMintAtoms, 8, b5);
    var b3 := PutOptInt(c.maxP2pSettlementSats, 8, b4);
    var b2 := PutOptInt(c.maxSingleRedeemPayoutSats, 8, b3);
    var b1 := PutOptInt(c.maxSingleBuySats, 8, b2);
    TakesOptInt(c.maxBackingSats, 8, b1);
    TakesOptInt(c.maxSingleBuySats, 8, b2);
    TakesOptInt(c.maxSingleRedeemPayoutSats, 8, b3);
    TakesOptInt(c.maxP2pSettlementSats, 8, b4);
    TakesOptInt(c.maxMintAtoms, 8, b5);
    TakesOptInt(c.minMintGrossSats, 8, b6);
    TakesLists(c, rest);
  }

  // ── The whole profile ────────────────────────────────────────────────────

  function CanonicalBytes(p: Profile): Buffer
    requires Encodable(p)
  {
    PutHeader(p.header, PutRecovery(p.recovery, PutFees(p.fees, PutSurface(p.surface, PutCanary(p.canary, [])))))
  }

  /** Accepts only a buffer with nothing left over. */
  function Decode(b: Buffer): Option<Profile> {
    var header :- TakeHeader(b);
    var recovery :- TakeRecovery(header.rest);
    var fees :- TakeFees(recovery.rest);
    var surface :- TakeSurface(fees.rest);
    var canary :- TakeCanary(surface.rest);
    if canary.rest != [] then None
    else Some(Profile(header.value, recovery.value, fees.value, surface.value, canary.value))
  }

  /** The decoder recovers the normal form of every encodable profile. */
  lemma DecodeRecovers(p: Profile)
    requires Encodable(p)
    ensures Decode(CanonicalBytes(p)) == Some(Normal(p))
  {
    hide PutHeader, PutRecovery, PutFees, PutSurface, PutCanary, TakeHeader, TakeRecovery, TakeFees, TakeSurface,
         TakeCanary;
    hide HeaderFits, RecoveryFits, FeesFit, SurfaceFits, CanaryFits;
    var b4 := PutCanary(p.canary, []);
    var b3 := PutSurface(p.surface, b4);
    var b2 := PutFees(p.fees, b3);
    var b1 := PutRecovery(p.recovery, b2);
    TakesHeader(p.header, b1);
    TakesRecovery(p.recovery, b2);
    TakesFees(p.fees, b3);
    TakesSurface(p.surface, b4);
    TakesCanary(p.canary, []);
  }

  // ── Which profiles share their bytes ─────────────────────────────────────

  /** Equal except, possibly, for the fee script. */
  ghost predicate SameButForFeeScript(p: Profile, q: Profile) {
    && p.header.(guardianXOnly := None) == q.header.(guardianXOnly := None)
    && LowerOpt(p.header.guardianXOnly) == LowerOpt(q.header.guardianXOnly)
    && p.recovery.(pubkeys := []) == q.recovery.(pubkeys := [])
    && multiset(LowerAll(p.recovery.pubkeys)) == multiset(LowerAll(q.recovery.pubkeys))
    && p.fees.(feeScript := None) == q.fees.(feeScript := None)
    && p.surface.(mintCmr := "", redeemCmr := "") == q.surface.(mintCmr := "", redeemCmr := "")
    && Lower(p.surface.mintCmr) == Lower(q.surface.mintCmr) && Lower(p.surface.redeemCmr) == Lower(q.surface.redeemCmr)
    && p.canary.(allowedWalletScripts := [], allowedTokenIds := [])
        == q.canary.(allowedWalletScripts := [], allowedTokenIds := [])
    && multiset(LowerAll(p.canary.allowedWalletScripts)) == multiset(LowerAll(q.canary.allowedWalletScripts))
    && multiset(LowerAll(p.canary.allowedTokenIds)) == multiset(LowerAll(q.canary.allowedTokenIds))
  }

  /** The same profile up to hex case and list order. */
  ghost predicate SameUpToCaseAndOrder(p: Profile, q: Profile) {
    SameButForFeeScript(p, q) && LowerOpt(p.fees.feeScript) == LowerOpt(q.fees.feeScript)
  }

  lemma SameListsSortAlike(xs: seq<string>, ys: seq<string>)
    ensures CanonicalTexts(xs) == CanonicalTexts(ys) <==> multiset(LowerAll(xs)) == multiset(LowerAll(ys))
  {
    hide Sort, LexLe, LowerAll;
    TextsSortAlike(LowerAll(xs), LowerAll(ys));
  }

  lemma NormalFormsAgree(p: Profile, q: Profile)
    ensures Normal(p) == Normal(q) <==>
            SameButForFeeScript(p, q) && EvenFeeScript(p.fees.feeScript) == EvenFeeScript(q.fees.feeScript)
  {
    hide CanonicalTexts, LowerAll, Lower, EvenFeeScript, LowerOpt;
    SameListsSortAlike(p.recovery.pubkeys, q.recovery.pubkeys);
    SameListsSortAlike(p.canary.allowedWalletScripts, q.canary.allowedWalletScripts);
    SameListsSortAlike(p.canary.allowedTokenIds, q.canary.allowedTokenIds);
    assert p.recovery == p.recovery.(pubkeys := []).(pubkeys := p.recovery.pubkeys);
  }

  lemma {:induction false} LoweredKeysWriteAlike(xs: seq<string>, rest: Buffer)
    requires AllHex64(xs)
    ensures AllHex64(LowerAll(xs)) && PutHex64s(LowerAll(xs), rest) == PutHex64s(xs, rest)
    decreases |xs|
  {
    forall i | 0 <= i < |xs|
      ensures IsHex64(LowerAll(xs)[i])
    {
      LowerKeepsHex(xs[i]);
    }
    if xs != [] {
      LowerKeepsHex(xs[0]);
      LoweredKeysWriteAlike(xs[1..], rest);
      assert LowerAll(xs)[1..] == LowerAll(xs[1..]);
      assert LowerAll(xs)[0] == Lower(xs[0]);
    }
  }

  lemma ScriptsWriteAlike(a: Option<string>, b: Option<string>, rest: Buffer)
    requires a.Some? ==> IsHex(a.value) && |a.value| / 2 < U16
    requires b.Some? ==> IsHex(b.value) && |b.value| / 2 < U16
    requires EvenFeeScript(a) == EvenFeeScript(b)
    ensures PutScript(a, rest) == PutScript(b, rest)
  {
    if a.Some? {
      EvenBytes(a.value);
      EvenBytes(b.value);
    }
  }

  lemma EvenBytes(s: string)
    requires IsHex(s)
    ensures IsHex(Lower(WholePairs(s))) && HexBytes(Lower(WholePairs(s))) == HexBytes(s)
  {
    LowerKeepsHex(WholePairs(s));
    assert HexBytes(WholePairs(s)) == HexBytes(s);
  }

  lemma KeysWriteAlike(a: seq<string>, b: seq<string>, rest: Buffer)
    requires AllHex64(a) && AllHex64(b) && CanonicalTexts(a) == CanonicalTexts(b)
    ensures AllHex64(NormalizePubkeys(a)) && AllHex64(NormalizePubkeys(b))
    ensures PutHex64s(NormalizePubkeys(a), rest) == PutHex64s(NormalizePubkeys(b), rest)
  {
    SortedKeysAreHex(a);
    SortedKeysAreHex(b);
    NormalizeThenLower(a);
    NormalizeThenLower(b);
    LoweredKeysWriteAlike(NormalizePubkeys(a), rest);
    LoweredKeysWriteAlike(NormalizePubkeys(b), rest);
  }

  lemma NormalDeterminesBytes(p: Profile, q: Profile)
    requires Encodable(p) && Encodable(q) && Normal(p) == Normal(q)
    ensures CanonicalBytes(p) == CanonicalBytes(q)
  {
    hide PutText, PutOptInt, PutHex64s, PutTexts, BigEndian, Pow256, CanonicalTexts, NormalizePubkeys, AllHex64,
         AllHexTexts, HexBytes, Lower, EvenFeeScript;
    Widths();
    SortedTextsAreHex(p.canary.allowedWalletScripts);
    SortedTextsAreHex(q.canary.allowedWalletScripts);
    TokenIdsAreTexts(p.canary.allowedTokenIds);
    TokenIdsAreTexts(q.canary.allowedTokenIds);
    SortedTextsAreHex(p.canary.allowedTokenIds);
    SortedTextsAreHex(q.canary.allowedTokenIds);
    assert PutLists(p.canary, []) == PutLists(q.canary, []);
    var b4 := PutCanary(p.canary, []);
    assert b4 == PutCanary(q.canary, []);
    SurfacesWriteAlike(p.surface, q.surface, b4);
    var b3 := PutSurface(p.surface, b4);
    ScriptsWriteAlike(p.fees.feeScript, q.fees.feeScript,
                      PutOptInt(p.fees.buyFeeBps, 2, PutOptInt(p.fees.redeemFeeBps, 2,
                                                               PutOptInt(p.fees.p2pFeeBps, 2, b3))));
    var b2 := PutFees(p.fees, b3);
    assert b2 == PutFees(q.fees, b3);
    KeysWriteAlike(p.recovery.pubkeys, q.recovery.pubkeys, b2);
    SameKeyCount(p.recovery.pubkeys, q.recovery.pubkeys);
    var b1 := PutRecovery(p.recovery, b2);
    assert b1 == PutRecovery(q.recovery, b2);
    assert PutHeader(p.header, b1) == PutHeader(q.header, b1);
  }

  lemma SameKeyCount(a: seq<string>, b: seq<string>)
    requires CanonicalTexts(a) == CanonicalTexts(b)
    ensures |a| == |b|
  {
    SortKeeps(LowerAll(a), LexLe);
    SortKeeps(LowerAll(b), LexLe);
  }

  lemma SurfacesWriteAlike(s: Surface, t: Surface, rest: Buffer)
    requires SurfaceFits(s) && SurfaceFits(t)
    requires s.(mintCmr := Lower(s.mintCmr), redeemCmr := Lower(s.redeemCmr))
             == t.(mintCmr := Lower(t.mintCmr), redeemCmr := Lower(t.redeemCmr))
    ensures PutSurface(s, rest) == PutSurface(t, rest)
  {
    LowerKeepsHex(s.mintCmr);
    LowerKeepsHex(t.mintCmr);
    LowerKeepsHex(s.redeemCmr);
    LowerKeepsHex(t.redeemCmr);
    hide Lower, HexBytes, BigEndian;
  }

  /** Two encodable profiles have the same bytes exactly when they agree up to hex case, list
      order and a last odd digit of the fee script. */
  lemma SameBytesExactly(p: Profile, q: Profile)
    requires Encodable(p) && Encodable(q)
    ensures CanonicalBytes(p) == CanonicalBytes(q) <==>
            SameButForFeeScript(p, q) && EvenFeeScript(p.fees.feeScript) == EvenFeeScript(q.fees.feeScript)
  {
    hide CanonicalBytes, Decode, Normal, Encodable, SameButForFeeScript, EvenFeeScript;
    DecodeRecovers(p);
    DecodeRecovers(q);
    NormalFormsAgree(p, q);
    if Normal(p) == Normal(q) {
      NormalDeterminesBytes(p, q);
    }
  }

  predicate WholeFeeScript(p: Profile) {
    p.fees.feeScript.Some? ==> |p.fees.feeScript.value| % 2 == 0
  }

  /** With whole-byte fee scripts the encoding is injective up to case and order, and list order
      and case do not show in it. */
  lemma WholeScriptsAreInjective(p: Profile, q: Profile)
    requires Encodable(p) && Encodable(q) && WholeFeeScript(p) && WholeFeeScript(q)
    ensures CanonicalBytes(p) == CanonicalBytes(q) <==> SameUpToCaseAndOrder(p, q)
  {
    hide CanonicalBytes, Encodable, SameButForFeeScript, Lower;
    SameBytesExactly(p, q);
    assert p.fees.feeScript.Some? ==> WholePairs(p.fees.feeScript.value) == p.fees.feeScript.value;
    assert q.fees.feeScript.Some? ==> WholePairs(q.fees.feeScript.value) == q.fees.feeScript.value;
  }

  lemma MintCmrIsHex()
    ensures IsHex64(MINT_CMR)
  {
    assert IsHex("7fb27adf2db54588") && IsHex("82daf976ba932581") && IsHex("5f111b2f3b16eedb")
           && IsHex("72e75f96de4269b2");
  }

  lemma RedeemCmrIsHex()
    ensures IsHex64(REDEEM_CMR)
  {
    assert IsHex("37e681b3e70a34ac") && IsHex("c3b38680c06fbe4f") && IsHex("1b2799bede2607c6")
           && IsHex("c9ed7fcac8c95d56");
  }

  lemma LowerOfHex(a: string, b: string)
    requires Lower(a) == Lower(b) && IsHex(b)
    ensures IsHex(a) && |a| == |b|
  {
    forall i | 0 <= i < |a|
      ensures IsHexChar(a[i])
    {
      assert Lower(a)[i] == Lower(b)[i];
    }
  }

  lemma HeaderFitsExactly(k: Checks, h: Header)
    requires HeaderValid(k, h)
    ensures HeaderFits(h) <==> h.activationHeight.value < U64
  {
    hide IsHex, HexBytes;
  }

  lemma ValidRecoveryFits(k: Checks, r: Recovery, guardian: Option<string>)
    requires RecoveryValid(k, r, guardian)
    ensures RecoveryFits(r)
  {
    hide IsHex, HexBytes, DistinctTexts, Lower;
  }

  lemma ValidFeesFit(k: Checks, f: Fees)
    requires FeesValid(k, f)
    ensures FeesFit(f)
  {
    hide IsHex;
  }

  lemma ValidSurfaceFits(s: Surface)
    requires SurfaceValid(s)
    ensures SurfaceFits(s)
  {
    hide Lower, IsHex;
    MintCmrIsHex();
    RedeemCmrIsHex();
    LowerOfHex(s.mintCmr, MINT_CMR);
    LowerOfHex(s.redeemCmr, REDEEM_CMR);
  }

  lemma SupplyIsPinned(s: Surface)
    requires SurfaceValid(s)
    ensures s.maxProtocolSupplyAtoms == PUBLIC_SUPPLY_ATOMS
  {
  }

  lemma CanaryFitsExactly(k: Checks, c: Canary)
    requires CanaryValid(k, c, PUBLIC_SUPPLY_ATOMS)
    ensures CanaryFits(c) <==>
            && c.maxBackingSats.value < U64 && c.maxSingleBuySats.value < U64 && c.maxSingleRedeemPayoutSats.value < U64
            && c.maxP2pSettlementSats.value < U64 && c.minMintGrossSats.value < U64
            && |c.allowedWalletScripts| < U16 && |c.allowedTokenIds| < U16
            && forall i :: 0 <= i < |c.allowedWalletScripts| ==> |c.allowedWalletScripts[i]| < U16
  {
    hide IsHex;
  }

  /** A valid profile has bytes exactly when its unbounded numbers and lists fit their widths;
      otherwise the writer throws. */
  lemma ValidEncodesExactly(k: Checks, p: Profile)
    requires Valid(k, p)
    ensures var c := p.canary;
            Encodable(p) <==>
            && p.header.activationHeight.value < U64
            && c.maxBackingSats.value < U64 && c.maxSingleBuySats.value < U64 && c.maxSingleRedeemPayoutSats.value < U64
            && c.maxP2pSettlementSats.value < U64 && c.minMintGrossSats.value < U64
            && |c.allowedWalletScripts| < U16 && |c.allowedTokenIds| < U16
            && forall i :: 0 <= i < |c.allowedWalletScripts| ==> |c.allowedWalletScripts[i]| < U16
  {
    hide HeaderValid, HeaderFits, RecoveryValid, RecoveryFits, FeesValid, FeesFit, SurfaceValid, SurfaceFits,
         CanaryValid, CanaryFits;
    HeaderFitsExactly(k, p.header);
    ValidRecoveryFits(k, p.recovery, p.header.guardianXOnly);
    ValidFeesFit(k, p.fees);
    ValidSurfaceFits(p.surface);
    assert p.surface.maxProtocolSupplyAtoms == PUBLIC_SUPPLY_ATOMS by { SupplyIsPinned(p.surface); }
    CanaryFitsExactly(k, p.canary);
  }

  /** A validated fee script may carry one hex digit too many: the digit is not in the bytes, so
      two different valid profiles share their hash. */
  lemma OddDigitIsInvisible(k: Checks, p: Profile, digit: char)
    requires Valid(k, p) && Encodable(p) && WholeFeeScript(p) && IsHexChar(digit)
    requires k.allowTestKeys || !k.isTestScript(p.fees.feeScript.value + [digit])
    ensures var q := p.(fees := p.fees.(feeScript := Some(p.fees.feeScript.value + [digit])));
            && Valid(k, q) && Encodable(q)
            && CanonicalBytes(q) == CanonicalBytes(p)
            && !SameUpToCaseAndOrder(p, q)
  {
    hide HeaderFits, RecoveryFits, SurfaceFits, CanaryFits, HeaderValid, RecoveryValid, SurfaceValid, CanaryValid,
         CanonicalBytes;
    hide IsStandardMainnetScript, Lower, IsHex, WholePairs, SameButForFeeScript;
    var s := p.fees.feeScript.value;
    OddDigitIsDropped(s, digit);
    SameIsReflexive(p, Some(s + [digit]));
    SameBytesExactly(p, p.(fees := p.fees.(feeScript := Some(s + [digit]))));
    assert |Lower(s)| != |Lower(s + [digit])|;
  }

  /** No key or script is a public test one, and every key is a point. */
  const LENIENT := Checks(_ => true, _ => false, _ => false, false)

  /** A complete 1-of-1 profile that pays its fees to a P2WPKH script. */
  const SOLO_FEE_SCRIPT: string := "0014" + seq(40, _ => '1')
  const SOLO := Profile(
    Header(1, CHAIN_BITCOIN_MAINNET, Some(900_000), COVE_POLICY_V3, VAULT_PROFILE, Some(seq(64, _ => '1'))),
    Recovery(1, Some(144), [seq(64, _ => '2')]),
    Fees(Some(SOLO_FEE_SCRIPT), Some(750), Some(750), Some(750)),
    Surface(TOKEN_CARRIER_SATS, RESERVE_ANCHOR_SATS, PUBLIC_SUPPLY_ATOMS, GRADUATION_RESERVE_ATOMS, MINT_CMR,
            REDEEM_CMR),
    Canary(Some(1), Some(1), Some(1), Some(1), Some(1), Some(1), [SOLO_FEE_SCRIPT], [seq(64, _ => '3')]))

  lemma SoloFeeScript()
    ensures |SOLO_FEE_SCRIPT| == 44 && IsHex(SOLO_FEE_SCRIPT) && IsStandardMainnetScript(SOLO_FEE_SCRIPT)
  {
    var s := SOLO_FEE_SCRIPT;
    assert s[0] == '0' && s[1] == '0' && s[2] == '1' && s[3] == '4';
    var b := HexBytes(s);
    assert b[0] == 16 * Nibble(s[0]) + Nibble(s[1]) && b[1] == 16 * Nibble(s[2]) + Nibble(s[3]);
  }

  lemma SoloKeys()
    ensures HeaderValid(LENIENT, SOLO.header) && RecoveryValid(LENIENT, SOLO.recovery, SOLO.header.guardianXOnly)
  {
    hide HexBytes;
    assert Lower(SOLO.recovery.pubkeys[0])[0] == '2' && Lower(SOLO.header.guardianXOnly.value)[0] == '1';
  }

  lemma SoloRest()
    ensures FeesValid(LENIENT, SOLO.fees) && SurfaceValid(SOLO.surface)
    ensures CanaryValid(LENIENT, SOLO.canary, SOLO.surface.maxProtocolSupplyAtoms)
  {
    hide IsStandardMainnetScript, Lower, SOLO_FEE_SCRIPT;
    SoloFeeScript();
  }

  lemma SoloIsValid()
    ensures Valid(LENIENT, SOLO) && Encodable(SOLO) && WholeFeeScript(SOLO)
  {
    hide HeaderValid, RecoveryValid, FeesValid, SurfaceValid, CanaryValid, Encodable;
    SoloKeys();
    SoloRest();
    SoloFeeScript();
    ValidEncodesExactly(LENIENT, SOLO);
  }

  /** Two valid profiles with the same bytes that pay their fees to different texts. */
  lemma OddDigitWitness()
    ensures var q := SOLO.(fees := SOLO.fees.(feeScript := Some(SOLO_FEE_SCRIPT + ['0'])));
            && Valid(LENIENT, SOLO) && Valid(LENIENT, q) && Encodable(SOLO) && Encodable(q)
            && CanonicalBytes(q) == CanonicalBytes(SOLO) && !SameUpToCaseAndOrder(SOLO, q)
  {
    SoloIsValid();
    hide Valid, Encodable, CanonicalBytes, SameUpToCaseAndOrder, WholeFeeScript;
    OddDigitIsInvisible(LENIENT, SOLO, '0');
  }

  lemma SameIsReflexive(p: Profile, script: Option<string>)
    ensures SameButForFeeScript(p, p.(fees := p.fees.(feeScript := script)))
  {
  }

  lemma OddDigitIsDropped(s: string, digit: char)
    requires IsHex(s) && |s| % 2 == 0 && IsHexChar(digit)
    ensures IsHex(s + [digit])
    ensures WholePairs(s + [digit]) == s == WholePairs(s)
    ensures IsStandardMainnetScript(s) ==> IsStandardMainnetScript(s + [digit])
  {
    assert HexBytes(s + [digit]) == HexBytes(s);
  }
}
