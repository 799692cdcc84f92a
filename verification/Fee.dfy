/** Protocol and creator fees: a flat part, a percentage rounded up, and a floor. */
module Fee {
  import opened Wrappers
  import opened Constants
  import opened Rounding
  import opened Curve
  import opened Backing

  const BPS_DENOM: nat := 10_000
  const LOT_ATOMS: nat := LOT_TOKENS * ATOMS_PER_TOKEN
  const CREATOR_MIN_SATS: nat := 546
  const CREATOR_FEE_BPS: nat := 5_000
  const BUY_FEE_LOT_SATS: nat := 10

  datatype FeeError = NegativeGross | NegativeBps | NegativeFlat | NegativeMin

  /** The fee on non-negative arguments; a zero gross pays nothing, not even the floor. */
  function FeeOf(gross: nat, bps: nat, flat: nat, min: nat): nat {
    if gross == 0 then 0
    else
      var fee := flat + (if bps == 0 then 0 else (gross * bps + BPS_DENOM - 1) / BPS_DENOM);
      if fee < min then min else fee
  }

  function DeterministicFee(gross: int, bps: int, flat: int, min: int): Result<nat, FeeError> {
    if gross < 0 then Err(NegativeGross)
    else if bps < 0 then Err(NegativeBps)
    else if flat < 0 then Err(NegativeFlat)
    else if min < 0 then Err(NegativeMin)
    else Ok(FeeOf(gross, bps, flat, min))
  }

  /** Flat per mint, plus a charge per lot, plus a percentage. */
  function MintFeeSats(gross: nat, amountAtoms: nat, bps: nat, flatPerMint: nat, perLot: nat): nat {
    DeterministicFee(gross, bps, flatPerMint + perLot * (amountAtoms / LOT_ATOMS), 0).value
  }

  function CreatorFeeSats(gross: nat, bps: nat): nat {
    DeterministicFee(gross, bps, 0, CREATOR_MIN_SATS).value
  }

  lemma PercentIsCeil(gross: nat, bps: nat)
    requires gross > 0
    ensures (if bps == 0 then 0 else (gross * bps + BPS_DENOM - 1) / BPS_DENOM) == CeilDiv(gross * bps, BPS_DENOM)
  {
    if bps > 0 {
      assert gross * bps > 0 by { MulMono(1, gross, bps); }
    } else {
      assert gross * 0 == 0;
    }
  }

  lemma FeeAsCeil(gross: nat, bps: nat, flat: nat, min: nat)
    requires gross > 0
    ensures FeeOf(gross, bps, flat, min) == var f := flat + CeilDiv(gross * bps, BPS_DENOM); if f < min then min else f
  {
    PercentIsCeil(gross, bps);
  }

  /** The fee refuses a negative argument by name, charges nothing on nothing, and is otherwise the flat
      part plus the percentage rounded up, raised to the floor. */
  lemma FeeExactly(gross: int, bps: int, flat: int, min: int)
    ensures var r := DeterministicFee(gross, bps, flat, min);
            && (r == Err(NegativeGross) <==> gross < 0)
            && (r == Err(NegativeBps) <==> gross >= 0 && bps < 0)
            && (r == Err(NegativeFlat) <==> gross >= 0 && bps >= 0 && flat < 0)
            && (r == Err(NegativeMin) <==> gross >= 0 && bps >= 0 && flat >= 0 && min < 0)
            && (gross >= 0 && bps >= 0 && flat >= 0 && min >= 0 ==>
                  var charged := flat + CeilDiv(gross * bps, 10_000);
                  r == Ok(if gross == 0 then 0 else if charged < min then min else charged))
  {
    if gross > 0 && bps >= 0 {
      PercentIsCeil(gross, bps);
    }
  }

  lemma FeeMono(g1: nat, g2: nat, bps: nat, f1: nat, f2: nat, min: nat)
    requires 0 < g1 <= g2 && f1 <= f2
    ensures FeeOf(g1, bps, f1, min) <= FeeOf(g2, bps, f2, min)
  {
    FeeAsCeil(g1, bps, f1, min);
    FeeAsCeil(g2, bps, f2, min);
    MulMono(g1, g2, bps);
    CeilDivMono(g1 * bps, g2 * bps, BPS_DENOM);
  }

  /** Two separate charges are never less than one charge on the sum, and exceed
      it by at least the flat part that is paid twice. */
  lemma FeeSubadditive(g1: nat, g2: nat, bps: nat, f: nat, f1: nat, f2: nat, min: nat)
    requires g1 > 0 && g2 > 0
    ensures FeeOf(g1 + g2, bps, f + f1 + f2, min) + (if min == 0 then f else 0)
            <= FeeOf(g1, bps, f + f1, min) + FeeOf(g2, bps, f + f2, min)
  {
    FeeAsCeil(g1, bps, f + f1, min);
    FeeAsCeil(g2, bps, f + f2, min);
    FeeAsCeil(g1 + g2, bps, f + f1 + f2, min);
    assert g1 * bps >= 0 && g2 * bps >= 0 by { MulMono(0, g1, bps); MulMono(0, g2, bps); }
    assert (g1 + g2) * bps == g1 * bps + g2 * bps;
    CeilDivSplit(g1 * bps, g2 * bps, BPS_DENOM);
  }

  // ── Settlement of the fee output ─────────────────────────────────────────

  /** The smallest gross whose percentage fee is a relayable output. */
  function MinimumGrossForStandardFeeOutput(dust: nat, bps: nat): Option<nat>
    requires dust >= 1
  {
    if bps == 0 then None else Some(((dust - 1) * BPS_DENOM) / bps + 1)
  }

  /** The threshold is exact in both directions. */
  lemma SettlementThresholdIsExact(gross: nat, dust: nat, bps: nat)
    requires dust >= 1 && bps > 0
    ensures FeeOf(gross, bps, 0, 0) >= dust <==> gross >= MinimumGrossForStandardFeeOutput(dust, bps).value
  {
    var n := (dust - 1) * BPS_DENOM;
    var q := n / bps;
    DivBounds(n, bps);
    assert q >= 0;
    if gross > 0 {
      FeeAsCeil(gross, bps, 0, 0);
      var fee := CeilDiv(gross * bps, BPS_DENOM);
      assert gross * bps > 0 by { MulMono(1, gross, bps); }
      if gross >= q + 1 {
        MulMono(q + 1, gross, bps);
        assert (q + 1) * bps == q * bps + bps;
        if fee <= dust - 1 { MulMono(fee, dust - 1, BPS_DENOM); }
      } else {
        MulMono(gross, q, bps);
        if fee >= dust { MulMono(dust - 1, fee - 1, BPS_DENOM); }
      }
    }
  }

  // ── Quotes against the reserve ───────────────────────────────────────────

  datatype FeeConfig = FeeConfig(
    buyFeeBps: nat, buyFeeFlatSats: nat, buyFeeLotSats: nat,
    redeemFeeBps: nat, redeemFeeFlatSats: nat, redeemFeeMinSats: nat)

  const COVE_FEE_CONFIG := FeeConfig(750, 5_000, 10, 750, 0, 1_000)

  datatype Quote = Quote(gross: int, fee: nat, net: int)

  function QuoteBuy(supply: int, amount: int, cfg: FeeConfig): Result<Quote, BackingError> {
    var gross :- GrossBuy(supply, amount);
    var fee := MintFeeSats(gross, amount * ATOMS_PER_TOKEN, cfg.buyFeeBps, cfg.buyFeeFlatSats, cfg.buyFeeLotSats);
    Ok(Quote(gross, fee, gross + fee))
  }

  function QuoteRedeem(supply: int, amount: int, cfg: FeeConfig): Result<Quote, BackingError> {
    var gross :- GrossRedeem(supply, amount);
    var fee := DeterministicFee(gross, cfg.redeemFeeBps, cfg.redeemFeeFlatSats, cfg.redeemFeeMinSats).value;
    Ok(Quote(gross, fee, gross - fee))
  }

  /** A purchase adds the mint fee to the reserve difference, a redemption takes its own off. */
  lemma QuotesAre(supply: nat, amount: nat, cfg: FeeConfig)
    requires amount > 0
    ensures QuoteBuy(supply, amount, cfg).Ok? ==>
              var q := QuoteBuy(supply, amount, cfg).value;
              && supply + amount <= PUBLIC_SUPPLY && q.gross == Reserve(supply + amount) - Reserve(supply) > 0
              && q.fee == cfg.buyFeeFlatSats + cfg.buyFeeLotSats * (amount / 1_000)
                          + CeilDiv(q.gross * cfg.buyFeeBps, 10_000)
              && q.net == q.gross + q.fee
    ensures QuoteRedeem(supply, amount, cfg).Ok? ==>
              var q := QuoteRedeem(supply, amount, cfg).value;
              var charged := cfg.redeemFeeFlatSats + CeilDiv(q.gross * cfg.redeemFeeBps, 10_000);
              && amount <= supply <= PUBLIC_SUPPLY && q.gross == Reserve(supply) - Reserve(supply - amount) > 0
              && q.fee == (if charged < cfg.redeemFeeMinSats then cfg.redeemFeeMinSats else charged)
              && q.net == q.gross - q.fee
  {
    hide Reserve;
    GrossExactly(supply, amount);
    assert amount * ATOMS_PER_TOKEN / LOT_ATOMS == amount / 1_000;
    if QuoteBuy(supply, amount, cfg).Ok? {
      FeeAsCeil(GrossBuy(supply, amount).value, cfg.buyFeeBps,
                cfg.buyFeeFlatSats + cfg.buyFeeLotSats * (amount * ATOMS_PER_TOKEN / LOT_ATOMS), 0);
    }
    if QuoteRedeem(supply, amount, cfg).Ok? {
      FeeAsCeil(GrossRedeem(supply, amount).value, cfg.redeemFeeBps, cfg.redeemFeeFlatSats, cfg.redeemFeeMinSats);
    }
  }

  /** Buying and at once redeeming the same amount moves the same gross both ways,
      so the trader is out exactly the two fees. */
  lemma RoundTripCostsTheFees(supply: nat, amount: nat, cfg: FeeConfig)
    requires 0 < amount && supply + amount <= PUBLIC_SUPPLY
    ensures var buy, redeem := QuoteBuy(supply, amount, cfg), QuoteRedeem(supply + amount, amount, cfg);
            (buy.Ok? <==> redeem.Ok?) &&
            (buy.Ok? ==> buy.value.gross == redeem.value.gross
                         && buy.value.net - redeem.value.net == buy.value.fee + redeem.value.fee)
  {
    hide Reserve;
    BuyThenRedeem(supply, amount);
  }

  /** A redemption quote is not refused when its fee exceeds it: it comes out negative exactly when
      the gross is below the minimum or below the flat part plus the rounded percentage. */
  lemma RedeemNetSign(supply: int, amount: int, cfg: FeeConfig)
    requires QuoteRedeem(supply, amount, cfg).Ok?
    ensures var q := QuoteRedeem(supply, amount, cfg).value;
            var charged := cfg.redeemFeeFlatSats + CeilDiv(q.gross * cfg.redeemFeeBps, BPS_DENOM);
            q.net < 0 <==> q.gross < if cfg.redeemFeeMinSats > charged then cfg.redeemFeeMinSats else charged
  {
    hide Reserve;
    FeeAsCeil(GrossRedeem(supply, amount).value, cfg.redeemFeeBps, cfg.redeemFeeFlatSats, cfg.redeemFeeMinSats);
  }

  /** With no flat part and a rate of at most 100% that is exactly below the minimum. */
  lemma RedeemBelowMinimum(supply: int, amount: int, cfg: FeeConfig)
    requires QuoteRedeem(supply, amount, cfg).Ok?
    requires cfg.redeemFeeFlatSats == 0 && cfg.redeemFeeBps <= BPS_DENOM
    ensures var q := QuoteRedeem(supply, amount, cfg).value;
            q.net < 0 <==> q.gross < cfg.redeemFeeMinSats
  {
    hide Reserve;
    var gross := GrossRedeem(supply, amount).value;
    FeeAsCeil(gross, cfg.redeemFeeBps, cfg.redeemFeeFlatSats, cfg.redeemFeeMinSats);
    MulMono(cfg.redeemFeeBps, BPS_DENOM, gross);
    CeilDivMono(gross * cfg.redeemFeeBps, gross * BPS_DENOM, BPS_DENOM);
    CeilDivExact(gross, 0, BPS_DENOM);
  }

  /** At the live schedule: under 1,000 sats. */
  lemma LiveRedeemNetSign(supply: int, amount: int)
    requires QuoteRedeem(supply, amount, COVE_FEE_CONFIG).Ok?
    ensures var q := QuoteRedeem(supply, amount, COVE_FEE_CONFIG).value;
            q.net < 0 <==> q.gross < 1_000
  {
    hide QuoteRedeem;
    RedeemBelowMinimum(supply, amount, COVE_FEE_CONFIG);
  }
}
